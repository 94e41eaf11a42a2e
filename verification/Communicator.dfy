/** The vLLM communicator: which backend each all-reduce goes to, and why the two ranks'
    per-backend epochs stay in lock step over any program of calls. */
module Communicator {
  import opened StreamMachine
  import D3D12Protocol
  import ByteMapping
  import opened MixedPath
  import opened Sequences
  import opened Shapes

  datatype Dtype = F16 | F32 | BF16 | Other(size: nat)

  function ElementSize(d: Dtype): nat {
    match d case F16 => 2 case BF16 => 2 case F32 => 4 case Other(n) => n
  }

  predicate IsFloat(d: Dtype) { !d.Other? }

  /** An all-reduce argument: its type, its shape and its contents. */
  datatype Argument<V> = Argument(dtype: Dtype, shape: seq<nat>, payload: V)

  function SizeBytes<V>(t: Argument<V>): nat { Numel(t.shape) * ElementSize(t.dtype) }

  /** What both ranks agree on: world size, environment switches, byte limits, stream capability. */
  datatype Config = Config(
    worldSize: nat, d3d12Requested: bool, rcclRequested: bool,
    d3d12Min: nat, d3d12Max: nat, mappedMax: nat, streamCapable: bool)
  {
    predicate HasD3D12() { worldSize == 2 && d3d12Requested }
    predicate HasRccl() { rcclRequested }
    predicate HasMapped() { worldSize == 2 && !HasRccl() && !HasD3D12() }
  }

  /** `D3D12AllReduce.can_handle`. */
  predicate CanHandle<V>(cfg: Config, t: Argument<V>) {
    IsFloat(t.dtype) && 0 < SizeBytes(t) && cfg.d3d12Min <= SizeBytes(t) <= cfg.d3d12Max
  }

  datatype Route = ToD3D12 | ToRccl | ToMappedStream | ToMappedCpu | MappedRejects | ToGloo

  /** The branch an all-reduce takes. */
  function RouteOf<V>(cfg: Config, t: Argument<V>): Route {
    if cfg.HasD3D12() && CanHandle(cfg, t) then ToD3D12
    else if cfg.HasRccl() then ToRccl
    else if cfg.HasMapped() then
      if SizeBytes(t) > cfg.mappedMax then MappedRejects
      else if cfg.streamCapable && IsFloat(t.dtype) then ToMappedStream
      else ToMappedCpu
    else ToGloo
  }

  /** When each route is taken, from the configuration, the dtype and the shape alone. */
  ghost predicate TakenExactly<V>(cfg: Config, t: Argument<V>, route: Route) {
    var floating := t.dtype == F16 || t.dtype == F32 || t.dtype == BF16;
    var bytes := Numel(t.shape) * match t.dtype case F16 => 2 case F32 => 4 case BF16 => 2 case Other(n) => n;
    var suits := cfg.worldSize == 2 && cfg.d3d12Requested && floating
                 && 0 < bytes && cfg.d3d12Min <= bytes <= cfg.d3d12Max;
    var mapped := cfg.worldSize == 2 && !cfg.d3d12Requested && !cfg.rcclRequested;
    && (route == ToD3D12 <==> suits)
    && (route == ToRccl <==> !suits && cfg.rcclRequested)
    && (route == MappedRejects <==> mapped && bytes > cfg.mappedMax)
    && (route == ToMappedStream <==> mapped && bytes <= cfg.mappedMax && cfg.streamCapable && floating)
    && (route == ToMappedCpu <==> mapped && bytes <= cfg.mappedMax && !(cfg.streamCapable && floating))
    && (route == ToGloo <==> !suits && !cfg.rcclRequested && !mapped)
  }

  lemma RouteIsExact<V>(cfg: Config, t: Argument<V>)
    ensures TakenExactly(cfg, t, RouteOf(cfg, t))
  {
  }

  /** The payloads a program sends to one backend, in call order. */
  function Sent<V>(cfg: Config, program: seq<Argument<V>>, route: Route): seq<V> {
    if program == [] then []
    else
      var n := |program| - 1;
      Sent(cfg, program[..n], route) +
      if RouteOf(cfg, program[n]) == route then [program[n].payload] else []
  }

  /** The epoch a backend gives to call `i`. */
  function EpochOf<V>(cfg: Config, program: seq<Argument<V>>, i: nat): nat
    requires i < |program|
  {
    |Sent(cfg, program[..i + 1], RouteOf(cfg, program[i]))|
  }

  datatype D3D12Result = Summed(epoch: nat) | Empty | Closed | WrongDtype | TooLarge

  /** A PyTorch HIP stream seen as a queue of protocol operations. */
  class Stream<V> {
    var queue: seq<Op<V>>

    constructor ()
      ensures queue == []
    {
      queue := [];
    }

    method Enqueue(op: Op<V>)
      modifies this
      ensures queue == old(queue) + [op]
    {
      queue := queue + [op];
    }
  }

  class D3D12AllReduce<V> {
    const rank: Rank
    const cfg: Config
    var isOpen: bool
    var epoch: nat

    constructor (rank: Rank, cfg: Config)
      ensures this.rank == rank && this.cfg == cfg && isOpen && epoch == 0
    {
      this.rank, this.cfg, isOpen, epoch := rank, cfg, true, 0;
    }

    /** Checks in the order of the source, then advances the epoch and enqueues one program. */
    method AllReduce(t: Argument<V>, stream: Stream<V>) returns (r: D3D12Result)
      modifies this`epoch, stream
      ensures r.Closed? <==> !isOpen
      ensures r.WrongDtype? <==> isOpen && !IsFloat(t.dtype)
      ensures r.Empty? <==> isOpen && IsFloat(t.dtype) && SizeBytes(t) == 0
      ensures r.TooLarge? <==> isOpen && IsFloat(t.dtype) && SizeBytes(t) > cfg.d3d12Max
      ensures r.Summed? ==> r.epoch == epoch == old(epoch) + 1
                            && stream.queue == old(stream.queue) + Program(D3D12, rank, epoch, t.payload)
      ensures !r.Summed? ==> epoch == old(epoch) && stream.queue == old(stream.queue)
    {
      if !isOpen { return Closed; }
      if !IsFloat(t.dtype) { return WrongDtype; }
      if SizeBytes(t) == 0 { return Empty; }
      if SizeBytes(t) > cfg.d3d12Max { return TooLarge; }
      epoch := epoch + 1;
      var ready := epoch * 2 - 1;
      var consumed := ready + 1;
      var peer := Peer(rank);
      stream.Enqueue(Copy(rank, epoch, t.payload));
      stream.Enqueue(Signal(rank, ready));
      stream.Enqueue(Wait(peer, ready));
      stream.Enqueue(Add(epoch, t.payload, peer));
      stream.Enqueue(Signal(peer, consumed));
      stream.Enqueue(Wait(rank, consumed));
      r := Summed(epoch);
    }
  }

  datatype MappedResult = Enqueued(epoch: nat) | AddedOnCpu | PayloadTooLarge | EpochExhausted

  /** `SharedMemoryAllReduce` as the communicator sees it: the calls it puts on the stream, by payload. */
  class MappedAllReduce<V> {
    const rank: Rank
    const cfg: Config
    var epoch: nat

    constructor (rank: Rank, cfg: Config)
      ensures this.rank == rank && this.cfg == cfg && epoch == 0
    {
      this.rank, this.cfg, epoch := rank, cfg, 0;
    }

    method AllReduce(t: Argument<V>, stream: Stream<V>) returns (r: MappedResult)
      modifies this`epoch, stream
      ensures r.PayloadTooLarge? <==> SizeBytes(t) > cfg.mappedMax
      ensures r.AddedOnCpu? <==> SizeBytes(t) <= cfg.mappedMax && !(cfg.streamCapable && IsFloat(t.dtype))
      ensures r.EpochExhausted? <==>
                SizeBytes(t) <= cfg.mappedMax && cfg.streamCapable && IsFloat(t.dtype) && old(epoch) >= 0xFFFF_FF00
      ensures r.Enqueued? ==> r.epoch == epoch == old(epoch) + 1
                              && stream.queue == old(stream.queue) + Issued(MappedHost, rank, epoch, t.payload)
      ensures !r.Enqueued? ==> epoch == old(epoch) && stream.queue == old(stream.queue)
    {
      if SizeBytes(t) > cfg.mappedMax { return PayloadTooLarge; }
      if !(cfg.streamCapable && IsFloat(t.dtype)) { return AddedOnCpu; }
      if epoch >= ByteMapping.EPOCH_LIMIT { return EpochExhausted; }
      epoch := epoch + 1;
      var peer := Peer(rank);
      if epoch > 1 {
        stream.Enqueue(Wait(ConsumedWord(rank), epoch - 1));
      }
      stream.Enqueue(Copy(rank, epoch, t.payload));
      stream.Enqueue(Signal(ReadyWord(rank), epoch));
      stream.Enqueue(Wait(ReadyWord(peer), epoch));
      stream.Enqueue(Add(epoch, t.payload, peer));
      stream.Enqueue(Signal(ConsumedWord(peer), epoch));
      r := Enqueued(epoch);
    }
  }

  /** The operations a sequence of payloads puts on one stream. */
  function Programs<V>(p: Protocol, rank: Rank, payloads: seq<V>): seq<Op<V>> {
    if payloads == [] then []
    else
      var n := |payloads|;
      Programs(p, rank, payloads[..n - 1]) + Issued(p, rank, n, payloads[n - 1])
  }

  lemma ProgramsAppend<V>(p: Protocol, rank: Rank, payloads: seq<V>, v: V)
    ensures Programs(p, rank, payloads + [v]) == Programs(p, rank, payloads) + Issued(p, rank, |payloads| + 1, v)
  {
    assert (payloads + [v])[..|payloads|] == payloads;
  }

  lemma SentAppend<V>(cfg: Config, program: seq<Argument<V>>, t: Argument<V>, route: Route)
    ensures Sent(cfg, program + [t], route) ==
            if RouteOf(cfg, t) == route then Sent(cfg, program, route) + [t.payload] else Sent(cfg, program, route)
  {
    assert (program + [t])[..|program|] == program;
  }

  /** A backend that the configuration excludes receives nothing. */
  lemma {:induction false} NothingSent<V>(cfg: Config, program: seq<Argument<V>>)
    ensures !cfg.HasD3D12() ==> Sent(cfg, program, ToD3D12) == []
    ensures !cfg.HasMapped() ==> Sent(cfg, program, ToMappedStream) == []
  {
    if program == [] {
    } else {
      NothingSent(cfg, program[..|program| - 1]);
    }
  }

  /** The epoch of the mapped backend: it counts the stream calls until the guard stops it. */
  function MappedEpoch<V>(cfg: Config, program: seq<Argument<V>>): (e: nat)
    ensures e <= |Sent(cfg, program, ToMappedStream)|
  {
    var n := |Sent(cfg, program, ToMappedStream)|;
    if n <= ByteMapping.EPOCH_LIMIT then n else ByteMapping.EPOCH_LIMIT
  }

  /** The backend epochs count the calls routed there, and the queue holds exactly their programs. */
  ghost predicate InStep<V>(cfg: Config, rank: Rank, program: seq<Argument<V>>, d3d12Epoch: nat, mappedEpoch: nat, queue: seq<Op<V>>) {
    && d3d12Epoch == |Sent(cfg, program, ToD3D12)|
    && mappedEpoch == MappedEpoch(cfg, program)
    && queue == Programs(D3D12, rank, Sent(cfg, program, ToD3D12))
                + Programs(MappedHost, rank, Sent(cfg, program, ToMappedStream)[..mappedEpoch])
  }

  /** What one more call adds, route by route. */
  lemma D3D12Next<V>(cfg: Config, rank: Rank, program: seq<Argument<V>>, t: Argument<V>, d: nat, m: nat, queue: seq<Op<V>>)
    requires InStep(cfg, rank, program, d, m, queue) && RouteOf(cfg, t) == ToD3D12
    ensures InStep(cfg, rank, program + [t], d + 1, m, queue + Program(D3D12, rank, d + 1, t.payload))
    ensures EpochOf(cfg, program + [t], |program|) == d + 1
  {
    SentAppend(cfg, program, t, ToD3D12);
    SentAppend(cfg, program, t, ToMappedStream);
    NothingSent(cfg, program);
    LastEpoch(cfg, program, t);
    ProgramsAppend(D3D12, rank, Sent(cfg, program, ToD3D12), t.payload);
    AppendNothing(Programs(D3D12, rank, Sent(cfg, program, ToD3D12)));
    AppendNothing(queue + Program(D3D12, rank, d + 1, t.payload));
  }

  lemma MappedNext<V>(cfg: Config, rank: Rank, program: seq<Argument<V>>, t: Argument<V>, d: nat, m: nat, queue: seq<Op<V>>)
    requires InStep(cfg, rank, program, d, m, queue) && RouteOf(cfg, t) == ToMappedStream && m < ByteMapping.EPOCH_LIMIT
    ensures InStep(cfg, rank, program + [t], d, m + 1, queue + Issued(MappedHost, rank, m + 1, t.payload))
    ensures EpochOf(cfg, program + [t], |program|) == |Sent(cfg, program + [t], ToMappedStream)| == m + 1
  {
    var before := Sent(cfg, program, ToMappedStream);
    SentAppend(cfg, program, t, ToD3D12);
    SentAppend(cfg, program, t, ToMappedStream);
    LastEpoch(cfg, program, t);
    TakeAll(before);
    TakeAll(before + [t.payload]);
    ProgramsAppend(MappedHost, rank, before, t.payload);
    Regroup(Programs(D3D12, rank, Sent(cfg, program, ToD3D12)), Programs(MappedHost, rank, before), Issued(MappedHost, rank, m + 1, t.payload));
  }

  lemma ExhaustedNext<V>(cfg: Config, rank: Rank, program: seq<Argument<V>>, t: Argument<V>, d: nat, m: nat, queue: seq<Op<V>>)
    requires InStep(cfg, rank, program, d, m, queue) && RouteOf(cfg, t) == ToMappedStream && m >= ByteMapping.EPOCH_LIMIT
    ensures InStep(cfg, rank, program + [t], d, m, queue)
    ensures |Sent(cfg, program + [t], ToMappedStream)| > ByteMapping.EPOCH_LIMIT
  {
    SentAppend(cfg, program, t, ToD3D12);
    SentAppend(cfg, program, t, ToMappedStream);
    TakeSome(Sent(cfg, program, ToMappedStream), t.payload, m);
  }

  lemma OtherNext<V>(cfg: Config, rank: Rank, program: seq<Argument<V>>, t: Argument<V>, d: nat, m: nat, queue: seq<Op<V>>)
    requires InStep(cfg, rank, program, d, m, queue) && RouteOf(cfg, t) != ToD3D12 && RouteOf(cfg, t) != ToMappedStream
    ensures InStep(cfg, rank, program + [t], d, m, queue)
  {
    SentAppend(cfg, program, t, ToD3D12);
    SentAppend(cfg, program, t, ToMappedStream);
  }

  lemma TakeAll<T>(s: seq<T>)
    ensures s[..|s|] == s
  {
  }

  lemma TakeSome<T>(s: seq<T>, x: T, n: nat)
    requires n <= |s|
    ensures (s + [x])[..n] == s[..n]
  {
  }

  /** The last call's own epoch is the number of calls its backend has received. */
  lemma LastEpoch<V>(cfg: Config, program: seq<Argument<V>>, t: Argument<V>)
    ensures EpochOf(cfg, program + [t], |program|) == |Sent(cfg, program, RouteOf(cfg, t))| + 1
  {
    assert (program + [t])[..|program| + 1] == program + [t];
    SentAppend(cfg, program, t, RouteOf(cfg, t));
  }

  /** One rank's communicator. `program` is the history of its all-reduce calls. */
  class WindowsAmdMultiGpuCommunicator<V> {
    const cfg: Config
    const rank: Rank
    const d3d12: D3D12AllReduce<V>
    const mapped: MappedAllReduce<V>
    const stream: Stream<V>
    ghost var program: seq<Argument<V>>

    constructor (cfg: Config, rank: Rank)
      ensures this.cfg == cfg && this.rank == rank && program == [] && Valid() && fresh(d3d12) && fresh(mapped) && fresh(stream)
    {
      this.cfg, this.rank, program := cfg, rank, [];
      d3d12 := new D3D12AllReduce(rank, cfg);
      mapped := new MappedAllReduce(rank, cfg);
      stream := new Stream();
    }

    /** The backend epochs count the calls routed there, and the stream holds exactly their programs. */
    ghost predicate Valid()
      reads this, d3d12, mapped, stream
    {
      && d3d12.cfg == cfg && d3d12.rank == rank && d3d12.isOpen
      && mapped.cfg == cfg && mapped.rank == rank
      && InStep(cfg, rank, program, d3d12.epoch, mapped.epoch, stream.queue)
    }

    /** Routes one call. A call routed to D3D12 always passes that backend's own checks; a mapped call raises
        exactly when its payload is too large or its epoch counter is exhausted. */
    method AllReduce(t: Argument<V>) returns (route: Route, epoch: nat, raised: bool)
      requires Valid()
      modifies this`program, d3d12, mapped, stream
      ensures Valid() && program == old(program) + [t]
      ensures route == RouteOf(cfg, t) && TakenExactly(cfg, t, route)
      ensures raised <==> route == MappedRejects
                          || (route == ToMappedStream && |Sent(cfg, program, ToMappedStream)| > 0xFFFF_FF00)
      ensures !raised && (route == ToD3D12 || route == ToMappedStream) ==> epoch == EpochOf(cfg, program, |program| - 1)
    {
      RouteIsExact(cfg, t);
      epoch, raised := 0, false;
      if cfg.worldSize == 2 && cfg.d3d12Requested && CanHandle(cfg, t) {
        route := ToD3D12;
        epoch := ReduceOverD3D12(t);
      } else if cfg.rcclRequested {
        route := ToRccl;
        ReduceElsewhere(t);
      } else if cfg.worldSize == 2 && !cfg.d3d12Requested {
        route, epoch, raised := ReduceOverMapped(t);
      } else {
        route := ToGloo;
        ReduceElsewhere(t);
      }
    }

    method ReduceOverD3D12(t: Argument<V>) returns (epoch: nat)
      requires Valid() && RouteOf(cfg, t) == ToD3D12
      modifies this`program, d3d12, stream
      ensures Valid() && program == old(program) + [t] && epoch == EpochOf(cfg, program, |program| - 1)
    {
      D3D12Next(cfg, rank, program, t, d3d12.epoch, mapped.epoch, stream.queue);
      program := program + [t];
      var r := d3d12.AllReduce(t, stream);
      epoch := d3d12.epoch;
    }

    method ReduceOverMapped(t: Argument<V>) returns (route: Route, epoch: nat, raised: bool)
      requires Valid() && cfg.HasMapped()
      modifies this`program, mapped, stream
      ensures Valid() && program == old(program) + [t] && route == RouteOf(cfg, t)
      ensures raised <==> route == MappedRejects
                          || (route == ToMappedStream && |Sent(cfg, program, ToMappedStream)| > 0xFFFF_FF00)
      ensures !raised && route == ToMappedStream ==> epoch == EpochOf(cfg, program, |program| - 1)
    {
      ghost var before, d, m, queue := program, d3d12.epoch, mapped.epoch, stream.queue;
      program := program + [t];
      var r := mapped.AllReduce(t, stream);
      route := match r case PayloadTooLarge => MappedRejects case AddedOnCpu => ToMappedCpu case _ => ToMappedStream;
      raised, epoch := r.PayloadTooLarge? || r.EpochExhausted?, mapped.epoch;
      match r {
        case Enqueued(_) => MappedNext(cfg, rank, before, t, d, m, queue);
        case EpochExhausted => ExhaustedNext(cfg, rank, before, t, d, m, queue);
        case _ => OtherNext(cfg, rank, before, t, d, m, queue);
      }
    }

    /** Calls to the backends that keep no epoch. */
    ghost method ReduceElsewhere(t: Argument<V>)
      requires Valid() && RouteOf(cfg, t) != ToD3D12 && RouteOf(cfg, t) != ToMappedStream
      modifies this`program
      ensures Valid() && program == old(program) + [t]
    {
      OtherNext(cfg, rank, program, t, d3d12.epoch, mapped.epoch, stream.queue);
      program := program + [t];
    }
  }

  /** Both ranks run the same program: equal dtype and shape call by call, any payloads. */
  ghost predicate SameShapes<V>(a: seq<Argument<V>>, b: seq<Argument<V>>) {
    |a| == |b| && forall i | 0 <= i < |a| :: a[i].dtype == b[i].dtype && a[i].shape == b[i].shape
  }

  /** Lock step: both ranks route every call alike and give it the same epoch, and the payload a
      backend holds under that epoch is that call's own on both ranks. */
  lemma {:induction false} LockStep<V>(cfg: Config, a: seq<Argument<V>>, b: seq<Argument<V>>, i: nat)
    requires SameShapes(a, b) && i < |a|
    ensures RouteOf(cfg, a[i]) == RouteOf(cfg, b[i]) && EpochOf(cfg, a, i) == EpochOf(cfg, b, i)
    ensures var route, e := RouteOf(cfg, a[i]), EpochOf(cfg, a, i);
            && 1 <= e <= |Sent(cfg, a, route)| == |Sent(cfg, b, route)|
            && Sent(cfg, a, route)[e - 1] == a[i].payload && Sent(cfg, b, route)[e - 1] == b[i].payload
  {
    var route := RouteOf(cfg, a[i]);
    SameRoute(cfg, a[i], b[i]);
    SentCounts(cfg, a, b, route);
    SentCounts(cfg, a[..i + 1], b[..i + 1], route);
    SentAt(cfg, a, i, route);
    SentAt(cfg, b, i, route);
  }

  /** Routing looks at nothing but dtype and shape. */
  lemma SameRoute<V>(cfg: Config, t: Argument<V>, u: Argument<V>)
    requires t.dtype == u.dtype && t.shape == u.shape
    ensures RouteOf(cfg, t) == RouteOf(cfg, u)
  {
  }

  lemma {:induction false} SentCounts<V>(cfg: Config, a: seq<Argument<V>>, b: seq<Argument<V>>, route: Route)
    requires SameShapes(a, b)
    ensures |Sent(cfg, a, route)| == |Sent(cfg, b, route)|
    decreases |a|
  {
    if a != [] {
      var n := |a| - 1;
      SameRoute(cfg, a[n], b[n]);
      SentCounts(cfg, a[..n], b[..n], route);
    }
  }

  lemma {:induction false} SentAt<V>(cfg: Config, program: seq<Argument<V>>, i: nat, route: Route)
    requires i < |program| && RouteOf(cfg, program[i]) == route
    ensures 1 <= |Sent(cfg, program[..i + 1], route)| <= |Sent(cfg, program, route)|
    ensures Sent(cfg, program, route)[|Sent(cfg, program[..i + 1], route)| - 1] == program[i].payload
    decreases |program|
  {
    var n := |program| - 1;
    if i == n {
      assert program[..i + 1] == program;
    } else {
      SentAt(cfg, program[..n], i, route);
      assert program[..n][..i + 1] == program[..i + 1];
    }
  }

  /** The calls a rank has issued so far are the first ones its program sends to the backend. */
  ghost predicate Issuing<V(!new)>(calls: seq<Call<V>>, sent: seq<V>) {
    |calls| <= |sent| && forall i | 0 <= i < |calls| :: calls[i].payload == sent[i]
  }

  /** End to end over D3D12: whenever call `i` of the program has an output on a rank, that output is
      the sum of both ranks' payloads of call `i`, however calls to other backends are interleaved. */
  lemma ProgramSumsOverD3D12<V(!new)>(cfg: Config, programs: seq<seq<Argument<V>>>, add: (V, V) -> V, t: State<V>, r: Rank, i: nat)
    requires |programs| == 2 && SameShapes(programs[0], programs[1]) && i < |programs[0]|
    requires RouteOf(cfg, programs[0][i]) == ToD3D12
    requires Reachable(D3D12, add, t) && D3D12Protocol.OneStreamEach(t)
    requires Issuing(t.ranks[0].calls, Sent(cfg, programs[0], ToD3D12))
    requires Issuing(t.ranks[1].calls, Sent(cfg, programs[1], ToD3D12))
    ensures var e := EpochOf(cfg, programs[0], i);
            e in t.ranks[r].outputs ==> t.ranks[r].outputs[e] == add(programs[r][i].payload, programs[Peer(r)][i].payload)
  {
    LockStep(cfg, programs[0], programs[1], i);
    D3D12Protocol.EveryOutputIsTheSum(add, t);
  }

  /** Progress end to end: once both ranks have issued every D3D12 call of the program and nothing can run,
      every such call has its sum on both ranks. */
  lemma ProgramCompletesOverD3D12<V(!new)>(cfg: Config, programs: seq<seq<Argument<V>>>, add: (V, V) -> V, t: State<V>, r: Rank, i: nat)
    requires |programs| == 2 && SameShapes(programs[0], programs[1]) && i < |programs[0]|
    requires RouteOf(cfg, programs[0][i]) == ToD3D12
    requires Reachable(D3D12, add, t) && D3D12Protocol.OneStreamEach(t) && Stuck(D3D12, t)
    requires Issuing(t.ranks[0].calls, Sent(cfg, programs[0], ToD3D12)) && |t.ranks[0].calls| == |Sent(cfg, programs[0], ToD3D12)|
    requires Issuing(t.ranks[1].calls, Sent(cfg, programs[1], ToD3D12)) && |t.ranks[1].calls| == |Sent(cfg, programs[1], ToD3D12)|
    ensures var e := EpochOf(cfg, programs[0], i);
            e in t.ranks[r].outputs && t.ranks[r].outputs[e] == add(programs[r][i].payload, programs[Peer(r)][i].payload)
  {
    LockStep(cfg, programs[0], programs[1], i);
    D3D12Protocol.StopsOnlyWhenComplete(add, t);
    ProgramSumsOverD3D12(cfg, programs, add, t, r, i);
  }

  /** The operations a communicator puts on its stream are those of the protocol's own issue steps. */
  lemma {:induction false} StreamIsIssued<V(!new)>(p: Protocol, add: (V, V) -> V, s: State<V>, r: Rank, q: nat, payloads: seq<V>) returns (t: State<V>)
    requires Initial(p, s) && Reachable(p, add, s) && q < |s.ranks[r].queues|
    ensures Reachable(p, add, t) && Shaped(p, t) && q < |t.ranks[r].queues|
    ensures t.ranks[r].queues[q] == Programs(p, r, payloads)
    ensures |t.ranks[r].calls| == |payloads| && Issuing(t.ranks[r].calls, payloads)
    ensures forall i | 0 <= i < |payloads| :: t.ranks[r].calls[i].stream == q
    ensures t.ranks[Peer(r)] == s.ranks[Peer(r)]
    decreases |payloads|
  {
    if payloads == [] {
      t := s;
    } else {
      var n := |payloads| - 1;
      var before := payloads[..n];
      var u := StreamIsIssued(p, add, s, r, q, before);
      t := IssueNext(p, add, u, r, q, payloads[n]);
      IssuingNext(u.ranks[r].calls, t.ranks[r].calls, payloads, q);
    }
  }

  lemma IssuingNext<V(!new)>(calls: seq<Call<V>>, more: seq<Call<V>>, payloads: seq<V>, q: nat)
    requires payloads != [] && |calls| == |payloads| - 1 && Issuing(calls, payloads[..|payloads| - 1])
    requires forall i | 0 <= i < |calls| :: calls[i].stream == q
    requires more == calls + [Call(q, payloads[|payloads| - 1])]
    ensures |more| == |payloads| && Issuing(more, payloads) && forall i | 0 <= i < |more| :: more[i].stream == q
  {
  }

  lemma IssueNext<V(!new)>(p: Protocol, add: (V, V) -> V, s: State<V>, r: Rank, q: nat, v: V) returns (t: State<V>)
    requires Reachable(p, add, s) && Shaped(p, s) && q < |s.ranks[r].queues|
    ensures Reachable(p, add, t) && Shaped(p, t) && q < |t.ranks[r].queues|
    ensures t.ranks[r].queues[q] == s.ranks[r].queues[q] + Issued(p, r, |s.ranks[r].calls| + 1, v)
    ensures t.ranks[r].calls == s.ranks[r].calls + [Call(q, v)] && t.ranks[Peer(r)] == s.ranks[Peer(r)]
  {
    t := Step(p, add, s, Issue(r, q, v));
    IssueEffect(p, add, s, r, q, v);
    ReachableStep(p, add, s, Issue(r, q, v));
  }

  /** With a commutative addition both ranks hold the same value for every call both completed. */
  lemma RanksAgree<V(!new)>(cfg: Config, programs: seq<seq<Argument<V>>>, add: (V, V) -> V, t: State<V>, i: nat)
    requires |programs| == 2 && SameShapes(programs[0], programs[1]) && i < |programs[0]|
    requires RouteOf(cfg, programs[0][i]) == ToD3D12
    requires Reachable(D3D12, add, t) && D3D12Protocol.OneStreamEach(t)
    requires Issuing(t.ranks[0].calls, Sent(cfg, programs[0], ToD3D12))
    requires Issuing(t.ranks[1].calls, Sent(cfg, programs[1], ToD3D12))
    requires forall x, y :: add(x, y) == add(y, x)
    ensures var e := EpochOf(cfg, programs[0], i);
            e in t.ranks[0].outputs && e in t.ranks[1].outputs ==> t.ranks[0].outputs[e] == t.ranks[1].outputs[e]
  {
    ProgramSumsOverD3D12(cfg, programs, add, t, 0, i);
    ProgramSumsOverD3D12(cfg, programs, add, t, 1, i);
  }

  // ---------------------------------------------------------------- the mapped backend, both of its paths

  /** Which path each mapped call of a program takes; rejected calls and other backends leave no trace. */
  function MappedKinds<V>(cfg: Config, program: seq<Argument<V>>): seq<Kind> {
    if program == [] then []
    else
      var n := |program| - 1;
      MappedKinds(cfg, program[..n]) +
      match RouteOf(cfg, program[n])
      case ToMappedStream => [StreamCall]
      case ToMappedCpu => [CpuCall]
      case _ => []
  }

  /** Every mapped call of a program is one entry of the list, in order, of its own kind; there are no others. */
  lemma {:induction false} KindsAreExact<V>(cfg: Config, program: seq<Argument<V>>, i: nat)
    requires i < |program| && (RouteOf(cfg, program[i]) == ToMappedStream || RouteOf(cfg, program[i]) == ToMappedCpu)
    ensures |MappedKinds(cfg, program)| == |Sent(cfg, program, ToMappedStream)| + |Sent(cfg, program, ToMappedCpu)|
    ensures var p := |Sent(cfg, program[..i], ToMappedStream)| + |Sent(cfg, program[..i], ToMappedCpu)|;
            && p < |MappedKinds(cfg, program)|
            && MappedKinds(cfg, program)[p] == if RouteOf(cfg, program[i]) == ToMappedStream then StreamCall else CpuCall
    decreases |program|
  {
    var n := |program| - 1;
    var before := program[..n];
    KindsCount(cfg, before);
    KindsCount(cfg, program);
    if i < n {
      KindsAreExact(cfg, before, i);
      assert before[..i] == program[..i];
    }
  }

  lemma {:induction false} KindsCount<V>(cfg: Config, program: seq<Argument<V>>)
    ensures |MappedKinds(cfg, program)| == |Sent(cfg, program, ToMappedStream)| + |Sent(cfg, program, ToMappedCpu)|
  {
    if program == [] {
    } else {
      KindsCount(cfg, program[..|program| - 1]);
    }
  }

  function CountKind(kinds: seq<Kind>, kind: Kind): nat {
    if kinds == [] then 0
    else
      var n := |kinds| - 1;
      CountKind(kinds[..n], kind) + if kinds[n] == kind then 1 else 0
  }

  lemma {:induction false} SentCountsKinds<V>(cfg: Config, program: seq<Argument<V>>)
    ensures |Sent(cfg, program, ToMappedStream)| == CountKind(MappedKinds(cfg, program), StreamCall)
    ensures |Sent(cfg, program, ToMappedCpu)| == CountKind(MappedKinds(cfg, program), CpuCall)
  {
    if program == [] {
    } else {
      var n := |program| - 1;
      var before := MappedKinds(cfg, program[..n]);
      SentCountsKinds(cfg, program[..n]);
      assert (before + [StreamCall])[..|before|] == before && (before + [CpuCall])[..|before|] == before;
      assert before + [] == before;
    }
  }

  lemma {:induction false} LeadingCounts(kinds: seq<Kind>, a: nat)
    requires Leading(kinds, a)
    ensures CountKind(kinds, CpuCall) == a && CountKind(kinds, StreamCall) == |kinds| - a
  {
    if kinds == [] {
    } else {
      var n := |kinds| - 1;
      LeadingCounts(kinds[..n], if a <= n then a else n);
    }
  }

  /** The CPU calls a rank has begun are the first ones its program sends to that path. */
  ghost predicate Feeding<V(!new)>(inputs: seq<V>, sent: seq<V>) {
    inputs <= sent
  }

  /** Both ranks of a mapped communicator follow their programs. */
  ghost predicate Following<V(!new)>(cfg: Config, programs: seq<seq<Argument<V>>>, m: Mixed<V>) {
    && |programs| == 2 && SameShapes(programs[0], programs[1]) && MixedShaped(m)
    && Issuing(m.gpu.ranks[0].calls, Sent(cfg, programs[0], ToMappedStream))
    && Issuing(m.gpu.ranks[1].calls, Sent(cfg, programs[1], ToMappedStream))
    && Feeding(m.workers[0].inputs, Sent(cfg, programs[0], ToMappedCpu))
    && Feeding(m.workers[1].inputs, Sent(cfg, programs[1], ToMappedCpu))
  }

  /** End to end over the mapped stream path, on any streams: when no CPU-path call of the program follows a
      stream-path call, the output of call `i` is the sum of both ranks' payloads of call `i`. */
  lemma ProgramSumsOverMappedHost<V(!new)>(cfg: Config, programs: seq<seq<Argument<V>>>, drains: bool, add: (V, V) -> V, m: Mixed<V>, r: Rank, i: nat)
    requires Following(cfg, programs, m) && i < |programs[0]| && RouteOf(cfg, programs[0][i]) == ToMappedStream
    requires NoCpuAfterStream(MappedKinds(cfg, programs[0]))
    requires MixedReachable(drains, MappedKinds(cfg, programs[0]), add, m)
    ensures var e := EpochOf(cfg, programs[0], i);
            e in m.gpu.ranks[r].outputs ==> m.gpu.ranks[r].outputs[e] == add(programs[r][i].payload, programs[Peer(r)][i].payload)
  {
    LockStep(cfg, programs[0], programs[1], i);
    MixedResultsAreSums(drains, MappedKinds(cfg, programs[0]), add, m);
    StreamSum(cfg, programs, add, m, r, i);
  }

  lemma StreamSum<V(!new)>(cfg: Config, programs: seq<seq<Argument<V>>>, add: (V, V) -> V, m: Mixed<V>, r: Rank, i: nat)
    requires Following(cfg, programs, m) && i < |programs[0]| && MixedSums(add, m)
    requires var e := EpochOf(cfg, programs[0], i);
             && 1 <= e <= |Sent(cfg, programs[0], ToMappedStream)| == |Sent(cfg, programs[1], ToMappedStream)|
             && Sent(cfg, programs[0], ToMappedStream)[e - 1] == programs[0][i].payload
             && Sent(cfg, programs[1], ToMappedStream)[e - 1] == programs[1][i].payload
    ensures var e := EpochOf(cfg, programs[0], i);
            e in m.gpu.ranks[r].outputs ==> m.gpu.ranks[r].outputs[e] == add(programs[r][i].payload, programs[Peer(r)][i].payload)
  {
    assert r == 0 || r == 1;
  }

  /** The same for the calls of the CPU path: each is the sum of rank 0's and rank 1's payload, in that order. */
  lemma ProgramSumsOverMappedCpu<V(!new)>(cfg: Config, programs: seq<seq<Argument<V>>>, drains: bool, add: (V, V) -> V, m: Mixed<V>, r: Rank, i: nat)
    requires Following(cfg, programs, m) && i < |programs[0]| && RouteOf(cfg, programs[0][i]) == ToMappedCpu
    requires NoCpuAfterStream(MappedKinds(cfg, programs[0]))
    requires MixedReachable(drains, MappedKinds(cfg, programs[0]), add, m)
    ensures var k := EpochOf(cfg, programs[0], i) - 1;
            0 <= k && (k < |m.workers[r].results| ==> m.workers[r].results[k] == add(programs[0][i].payload, programs[1][i].payload))
  {
    LockStep(cfg, programs[0], programs[1], i);
    MixedResultsAreSums(drains, MappedKinds(cfg, programs[0]), add, m);
    assert r == 0 || r == 1;
  }

  /** Progress end to end: when nothing can move and the barrier lost no signal, which it cannot without CPU
      calls, every stream call of the program has its sum on both ranks. */
  lemma ProgramCompletesOverMappedHost<V(!new)>(cfg: Config, programs: seq<seq<Argument<V>>>, drains: bool, add: (V, V) -> V, m: Mixed<V>, r: Rank, i: nat)
    requires Following(cfg, programs, m) && i < |programs[0]| && RouteOf(cfg, programs[0][i]) == ToMappedStream
    requires NoCpuAfterStream(MappedKinds(cfg, programs[0]))
    requires MixedReachable(drains, MappedKinds(cfg, programs[0]), add, m) && MixedStuck(drains, MappedKinds(cfg, programs[0]), m)
    requires m.gpu.ranks[0].queues != [] && m.gpu.ranks[1].queues != []
    requires m.workers[0].side.absorbed + m.workers[1].side.absorbed == 0 || Sent(cfg, programs[0], ToMappedCpu) == []
    ensures var e := EpochOf(cfg, programs[0], i);
            e in m.gpu.ranks[r].outputs && m.gpu.ranks[r].outputs[e] == add(programs[r][i].payload, programs[Peer(r)][i].payload)
  {
    ProgramSumsOverMappedHost(cfg, programs, drains, add, m, r, i);
    LockStep(cfg, programs[0], programs[1], i);
    StreamCallsDone(cfg, programs[0], drains, add, m, r, EpochOf(cfg, programs[0], i), programs[0][i].payload);
  }

  lemma StreamCallsDone<V(!new)>(cfg: Config, program: seq<Argument<V>>, drains: bool, add: (V, V) -> V, m: Mixed<V>, r: Rank, e: nat, v: V)
    requires NoCpuAfterStream(MappedKinds(cfg, program))
    requires MixedReachable(drains, MappedKinds(cfg, program), add, m) && MixedStuck(drains, MappedKinds(cfg, program), m)
    requires m.gpu.ranks[0].queues != [] && m.gpu.ranks[1].queues != []
    requires m.workers[0].side.absorbed + m.workers[1].side.absorbed == 0 || Sent(cfg, program, ToMappedCpu) == []
    requires 1 <= e <= |Sent(cfg, program, ToMappedStream)|
    ensures e in m.gpu.ranks[r].outputs
  {
    var kinds := MappedKinds(cfg, program);
    var a := LeadingCpuCalls(kinds);
    SentCountsKinds(cfg, program);
    LeadingCounts(kinds, a);
    MixedPathStops(drains, kinds, a, add, m, v);
    assert r == 0 || r == 1;
    OutputPresent(add, m.gpu, r, e);
  }

  lemma OutputPresent<V(!new)>(add: (V, V) -> V, s: State<V>, r: Rank, e: nat)
    requires |s.ranks| == 2 && Complete(add, s) && 1 <= e <= |s.ranks[r].calls|
    ensures e in s.ranks[r].outputs
  {
  }

  /** With a commutative addition the stream path gives both ranks the same value; the CPU path does so for
      any addition (`CpuAddPath.CpuResultsAreSums`). */
  lemma RanksAgreeOverMappedHost<V(!new)>(cfg: Config, programs: seq<seq<Argument<V>>>, drains: bool, add: (V, V) -> V, m: Mixed<V>, i: nat)
    requires Following(cfg, programs, m) && i < |programs[0]| && RouteOf(cfg, programs[0][i]) == ToMappedStream
    requires NoCpuAfterStream(MappedKinds(cfg, programs[0]))
    requires MixedReachable(drains, MappedKinds(cfg, programs[0]), add, m)
    requires forall x, y :: add(x, y) == add(y, x)
    ensures var e := EpochOf(cfg, programs[0], i);
            e in m.gpu.ranks[0].outputs && e in m.gpu.ranks[1].outputs ==> m.gpu.ranks[0].outputs[e] == m.gpu.ranks[1].outputs[e]
  {
    ProgramSumsOverMappedHost(cfg, programs, drains, add, m, 0, i);
    ProgramSumsOverMappedHost(cfg, programs, drains, add, m, 1, i);
  }
}
