/** The RCCL shim for llama.cpp: nested groups, deferred dispatch and transport routing. */
module RcclShim {
  import opened Options
  import opened Sequences

  const SIZE_MAX := 0xFFFF_FFFF_FFFF_FFFF

  /** `std::size_t`. */
  type SizeT = n: int | 0 <= n <= SIZE_MAX

  datatype Nccl = Success | UnhandledCudaError | SystemError | InvalidArgument | InvalidUsage | Other(code: nat)

  datatype DataType = Float16 | Float32 | Bfloat16 | Unsupported(code: nat)

  datatype RedOp = SumOp | OtherOp(code: nat)

  datatype TransportMode = Hybrid | D3D12Only | RcclOnly

  datatype DispatchMode = Threaded | NativeGroup

  /** The state the ranks of one `ncclCommInitAll` share. */
  class Clique {
    const devices: seq<int>
    const hasD3D12: bool
    const mode: TransportMode
    const dispatch: DispatchMode
    const bufferBytes: SizeT
    const routeMin: SizeT
    const routeMax: SizeT

    constructor (devices: seq<int>, hasD3D12: bool, mode: TransportMode, dispatch: DispatchMode,
                 bufferBytes: SizeT, routeMin: SizeT, routeMax: SizeT)
      ensures this.devices == devices && this.hasD3D12 == hasD3D12 && this.mode == mode && this.dispatch == dispatch
      ensures this.bufferBytes == bufferBytes && this.routeMin == routeMin && this.routeMax == routeMax
    {
      this.devices, this.hasD3D12, this.mode, this.dispatch := devices, hasD3D12, mode, dispatch;
      this.bufferBytes, this.routeMin, this.routeMax := bufferBytes, routeMin, routeMax;
    }
  }

  /** A communicator handle; `inner` is the wrapped RCCL communicator, if any. */
  datatype Comm = Comm(clique: Clique, rank: nat, inner: Option<int>)

  datatype Pending = Pending(send: int, recv: int, count: SizeT, datatype_: DataType, op: RedOp, comm: Comm, stream: int)

  // ---------------------------------------------------------------- initialization

  /** Environment variables, already parsed; `None` is unset or malformed. */
  datatype Env = Env(mode: TransportMode, dispatch: DispatchMode, experimental: bool,
                     bufferBytes: Option<SizeT>, minBytes: Option<SizeT>, maxBytes: Option<SizeT>)

  const DEFAULT_BYTES := 64 * 1024 * 1024

  function GetOr(o: Option<SizeT>, fallback: SizeT): SizeT {
    match o case Some(v) => v case None => fallback
  }

  /** What a handle relies on: its rank has a device, and a D3D12 transport joins two ranks and its routing
      range fits its buffer. */
  predicate Ready(c: Comm) {
    && c.rank < |c.clique.devices|
    && (c.clique.hasD3D12 ==> |c.clique.devices| == 2 && c.clique.routeMax <= c.clique.bufferBytes)
  }

  /** `ncclCommInitAll`. `realInit` is what the real library would answer, `None` when it does not load;
      `created` is whether the D3D12 transport can be created for a pair. */
  method CommInitAll(ndev: int, devlist: Option<seq<int>>, env: Env, realInit: Option<Nccl>, created: bool)
    returns (r: Nccl, comms: seq<Comm>)
    requires devlist.Some? && ndev > 0 ==> |devlist.value| >= ndev
    ensures var answer := if env.mode != D3D12Only && env.experimental && realInit.Some? then realInit.value else SystemError;
            var pair := env.mode != RcclOnly && ndev == 2 && created;
            && r == (if ndev <= 0 then InvalidArgument
                     else if env.mode == D3D12Only then if pair then Success else SystemError
                     else if env.mode == Hybrid && pair then Success
                     else answer)
            && (r == Success ==>
                  && |comms| == ndev > 0
                  && (forall i | 0 <= i < ndev ::
                        comms[i] == Comm(comms[0].clique, i, if answer == Success then Some(i) else None))
                  && var c := comms[0].clique;
                     && fresh(c) && c.mode == env.mode && c.dispatch == env.dispatch
                     && |c.devices| == ndev
                     && (forall i | 0 <= i < ndev :: c.devices[i] == if devlist.None? then i else devlist.value[i])
                     && c.hasD3D12 == pair
                     && c.bufferBytes == (match env.bufferBytes case Some(n) => n case None => 67108864)
                     && c.routeMin == (match env.minBytes case Some(n) => n case None => 0)
                     && c.routeMax == (if env.maxBytes.Some? && env.maxBytes.value <= c.bufferBytes then env.maxBytes.value else c.bufferBytes))
    ensures r == Success ==> forall i | 0 <= i < |comms| :: Ready(comms[i])
    ensures r != Success ==> comms == []
  {
    comms := [];
    if ndev <= 0 { return InvalidArgument, []; }
    var devices: seq<int> := [];
    var i := 0;
    while i < ndev
      invariant 0 <= i <= ndev && |devices| == i
      invariant forall k | 0 <= k < i :: devices[k] == if devlist.None? then k else devlist.value[k]
    {
      devices := devices + [if devlist.None? then i else devlist.value[i]];
      i := i + 1;
    }
    var bufferBytes := GetOr(env.bufferBytes, DEFAULT_BYTES);
    var routeMax := GetOr(env.maxBytes, bufferBytes);
    if routeMax > bufferBytes { routeMax := bufferBytes; }

    var realResult := SystemError;
    if env.mode != D3D12Only && env.experimental && realInit.Some? { realResult := realInit.value; }
    var hasD3D12 := env.mode != RcclOnly && ndev == 2 && created;
    var realReady := realResult == Success;
    if env.mode == RcclOnly && !realReady { return realResult, []; }
    if env.mode == D3D12Only && !hasD3D12 { return SystemError, []; }
    if !realReady && !hasD3D12 { return realResult, []; }

    var clique := new Clique(devices, hasD3D12, env.mode, env.dispatch, bufferBytes, GetOr(env.minBytes, 0), routeMax);
    i := 0;
    while i < ndev
      invariant 0 <= i <= ndev && |comms| == i
      invariant forall k | 0 <= k < i :: comms[k] == Comm(clique, k, if realReady then Some(k) else None)
    {
      comms := comms + [Comm(clique, i, if realReady then Some(i) else None)];
      i := i + 1;
    }
    r := Success;
  }

  // ---------------------------------------------------------------- routing

  function ElementSize(d: DataType): SizeT {
    match d case Float16 => 2 case Float32 => 4 case Bfloat16 => 2 case Unsupported(_) => 0
  }

  /** One rank's part of a D3D12 all-reduce. */
  datatype RankCall = RankCall(send: int, recv: int, count: SizeT, device: int, stream: int)

  datatype Dispatch =
    | Nothing
    | ToD3D12(calls: seq<RankCall>, datatype_: DataType)
    | ToNative(native: seq<Pending>)
    | ToThreads(pair: seq<Pending>)
    | Rejected

  predicate IsPair(calls: seq<Pending>) {
    |calls| == 2 && calls[0].comm.clique == calls[1].comm.clique && calls[0].comm.rank != calls[1].comm.rank
  }

  /** Multiplication in `std::size_t`, which wraps around. */
  function Product(a: SizeT, b: SizeT): SizeT {
    a * b % (SIZE_MAX + 1)
  }

  /** The size tests of the D3D12 branch. */
  predicate InLimits(c: Clique, bytes: SizeT) {
    bytes <= c.bufferBytes && (c.mode == D3D12Only || c.routeMin <= bytes <= c.routeMax)
  }

  predicate Initialized(calls: seq<Pending>) {
    forall i | 0 <= i < |calls| :: Ready(calls[i].comm)
  }

  /** The branch `dispatch_group` takes. The count is guarded by a division before it is multiplied. */
  function DispatchOf(calls: seq<Pending>): Dispatch
    requires Initialized(calls)
  {
    if calls == [] then Nothing
    else if !IsPair(calls) then ToNative(calls)
    else
      var (a, b) := if calls[0].comm.rank > calls[1].comm.rank then (calls[1], calls[0]) else (calls[0], calls[1]);
      var clique := a.comm.clique;
      var size := ElementSize(a.datatype_);
      var matching := a.count == b.count && a.datatype_ == b.datatype_ && a.op == SumOp && b.op == SumOp;
      var sizeValid := size != 0 && a.count <= SIZE_MAX / size;
      var bytes := if sizeValid then Product(a.count, size) else 0;
      if clique.hasD3D12 && size != 0 && matching && sizeValid && InLimits(clique, bytes) then
        ToD3D12([RankCall(a.send, a.recv, a.count, clique.devices[0], a.stream),
                 RankCall(b.send, b.recv, b.count, clique.devices[1], b.stream)], a.datatype_)
      else if a.comm.inner.None? || b.comm.inner.None? then Rejected
      else if clique.dispatch == NativeGroup then ToNative(calls)
      else ToThreads([a, b])
  }

  /** One call for each of two ranks of one clique. */
  predicate Paired(calls: seq<Pending>) {
    |calls| == 2 && calls[0].comm.clique == calls[1].comm.clique && calls[0].comm.rank != calls[1].comm.rank
  }

  /** The pairs D3D12 takes, by their true size. */
  predicate Suits(calls: seq<Pending>) {
    Paired(calls) &&
    var c := calls[0].comm.clique;
    var bytes := calls[0].count * if calls[0].datatype_ == Float32 then 4 else 2;
    && c.hasD3D12
    && calls[0].count == calls[1].count && calls[0].datatype_ == calls[1].datatype_
    && calls[0].op == calls[1].op == SumOp
    && calls[0].datatype_ in {Float16, Float32, Bfloat16}
    && bytes <= c.bufferBytes && (c.mode == D3D12Only || c.routeMin <= bytes <= c.routeMax)
  }

  /** Exactly which groups reach D3D12: one call per rank of a ready pair, equal SUMs of a supported type,
      whose true byte size, as an unbounded number, fits the buffer and the routing range. */
  lemma D3D12Exactly(calls: seq<Pending>)
    requires Initialized(calls)
    ensures DispatchOf(calls).ToD3D12? <==> Suits(calls)
  {
    if IsPair(calls) && !calls[0].datatype_.Unsupported? && !calls[1].datatype_.Unsupported? {
      GuardedProduct(calls[0].count, ElementSize(calls[0].datatype_));
      GuardedProduct(calls[1].count, ElementSize(calls[1].datatype_));
    }
  }

  /** The division guard is exactly "the product does not wrap". */
  lemma GuardedProduct(count: SizeT, size: SizeT)
    requires size == 2 || size == 4
    ensures count <= SIZE_MAX / size <==> count * size <= SIZE_MAX
    ensures count <= SIZE_MAX / size <==> Product(count, size) == count * size
  {
  }

  /** Why the guard is needed, exactly: the wrapped product answers every size limit as the true size does
      if and only if the guard passes. */
  lemma GuardIsExact(count: SizeT, size: SizeT)
    requires size == 2 || size == 4
    ensures (forall limit: SizeT :: AnswersAlike(count, size, limit)) <==> count <= SIZE_MAX / size
  {
    GuardedProduct(count, size);
    if count > SIZE_MAX / size {
      assert !AnswersAlike(count, size, SIZE_MAX);
    }
  }

  predicate AnswersAlike(count: SizeT, size: SizeT, limit: SizeT) {
    Product(count, size) <= limit <==> count * size <= limit
  }

  /** Without the guard a D3D12-only clique would accept 2^62 floats as an empty payload. */
  lemma UnguardedWouldRoute(c: Clique)
    requires c.mode == D3D12Only
    ensures var count: SizeT := 0x4000_0000_0000_0000;
            InLimits(c, Product(count, ElementSize(Float32))) && count * ElementSize(Float32) > c.bufferBytes
  {
  }

  /** Where every other group goes: unpaired calls natively as submitted, a pair without RCCL handles nowhere,
      and otherwise the configured dispatch, threads receiving the pair in rank order. */
  lemma OtherwiseExactly(calls: seq<Pending>)
    requires Initialized(calls) && !DispatchOf(calls).ToD3D12?
    ensures DispatchOf(calls) == Nothing <==> calls == []
    ensures DispatchOf(calls) == Rejected <==> IsPair(calls) && exists c :: c in calls && c.comm.inner.None?
    ensures DispatchOf(calls).ToThreads? <==>
              IsPair(calls) && calls[0].comm.clique.dispatch == Threaded && forall c | c in calls :: c.comm.inner.Some?
    ensures DispatchOf(calls).ToNative? ==> DispatchOf(calls).native == calls
    ensures DispatchOf(calls).ToThreads? ==>
              var pair := DispatchOf(calls).pair;
              |pair| == 2 && pair[0].comm.rank < pair[1].comm.rank && multiset(pair) == multiset(calls)
  {
    if IsPair(calls) {
      assert calls == [calls[0], calls[1]];
      assert calls[0] in calls && calls[1] in calls;
    }
  }

  /** The request handed over is in rank order: entry r belongs to rank r and names rank r's device. */
  lemma RequestIsRankOrdered(calls: seq<Pending>, r: nat)
    requires Initialized(calls) && DispatchOf(calls).ToD3D12? && r < 2
    ensures exists c :: c in calls && c.comm.rank == r &&
                        DispatchOf(calls).calls[r] == RankCall(c.send, c.recv, c.count, c.comm.clique.devices[r], c.stream)
  {
    assert calls[0] in calls && calls[1] in calls;
    var c := if calls[0].comm.rank == r then calls[0] else calls[1];
    assert c in calls && c.comm.rank == r;
  }

  /** Submission order does not matter. */
  lemma OrderDoesNotMatter(a: Pending, b: Pending)
    requires Initialized([a, b])
    ensures Initialized([b, a])
    ensures DispatchOf([a, b]).ToD3D12? <==> DispatchOf([b, a]).ToD3D12?
    ensures DispatchOf([a, b]).ToD3D12? ==> DispatchOf([a, b]) == DispatchOf([b, a])
    ensures DispatchOf([a, b]).ToThreads? ==> DispatchOf([a, b]) == DispatchOf([b, a])
    ensures DispatchOf([a, b]) == Rejected ==> DispatchOf([b, a]) == Rejected
  {
    assert a in [a, b] && b in [a, b];
    if IsPair([a, b]) && !a.datatype_.Unsupported? && !b.datatype_.Unsupported? {
      GuardedProduct(a.count, ElementSize(a.datatype_));
      GuardedProduct(b.count, ElementSize(b.datatype_));
    }
  }

  // ---------------------------------------------------------------- native dispatch

  datatype ApiCall = GroupStarted | Reduced(call: Pending) | GroupEnded

  datatype D3D12Request = D3D12Request(calls: seq<RankCall>, datatype_: DataType)

  /** What the libraries answer: arbitrary functions of what they are asked. `zeroFirst` tells which of two
      threads reaches the library first. */
  datatype Answers = Answers(
    loaded: bool, startResult: Nccl, endResult: Nccl, reduce: Pending -> Nccl,
    deviceReady: int -> bool, zeroFirst: seq<Pending> -> bool, transport: (seq<RankCall>, DataType) -> bool)

  /** The real library; every call is logged. */
  class RealRccl {
    const answers: Answers
    var log: seq<ApiCall>

    constructor (answers: Answers)
      ensures this.answers == answers && log == []
    {
      this.answers, log := answers, [];
    }

    method GroupStart() returns (r: Nccl)
      modifies this
      ensures r == answers.startResult && log == old(log) + [GroupStarted]
    {
      log := log + [GroupStarted];
      r := answers.startResult;
    }

    method AllReduce(call: Pending) returns (r: Nccl)
      modifies this
      ensures r == answers.reduce(call) && log == old(log) + [Reduced(call)]
    {
      log := log + [Reduced(call)];
      r := answers.reduce(call);
    }

    method GroupEnd() returns (r: Nccl)
      modifies this
      ensures r == answers.endResult && log == old(log) + [GroupEnded]
    {
      log := log + [GroupEnded];
      r := answers.endResult;
    }
  }

  /** `wac_d3d12_allreduce`; every request is logged. */
  class D3D12Transport {
    const answers: Answers
    var log: seq<D3D12Request>

    constructor (answers: Answers)
      ensures this.answers == answers && log == []
    {
      this.answers, log := answers, [];
    }

    method AllReduce(calls: seq<RankCall>, datatype_: DataType) returns (ok: bool)
      modifies this
      ensures ok == answers.transport(calls, datatype_) && log == old(log) + [D3D12Request(calls, datatype_)]
    {
      log := log + [D3D12Request(calls, datatype_)];
      ok := answers.transport(calls, datatype_);
    }
  }

  /** How far a native group gets: calls before the first unusable or failing one, and that failure. */
  function FirstFailure(reduce: Pending -> Nccl, calls: seq<Pending>): (seq<Pending>, Nccl) {
    if calls == [] then ([], Success)
    else if calls[0].comm.inner.None? then ([], InvalidUsage)
    else if reduce(calls[0]) != Success then ([calls[0]], reduce(calls[0]))
    else var (made, result) := FirstFailure(reduce, calls[1..]); ([calls[0]] + made, result)
  }

  /** What that means: the calls made are a prefix, all of them usable, and all but possibly the last succeed.
      Either everything was made and succeeded, or the last call made failed with the result, or the first call
      not made is unusable. */
  lemma {:induction false} FirstFailureMeaning(reduce: Pending -> Nccl, calls: seq<Pending>)
    ensures var (made, result) := FirstFailure(reduce, calls);
            && made <= calls
            && (forall i | 0 <= i < |made| :: made[i].comm.inner.Some?)
            && (forall i | 0 <= i < |made| - 1 :: reduce(made[i]) == Success)
            && (result == Success <==> made == calls && forall i | 0 <= i < |calls| :: reduce(calls[i]) == Success)
            && (result != Success ==>
                  || (made != [] && reduce(made[|made| - 1]) == result)
                  || (|made| < |calls| && calls[|made|].comm.inner.None? && result == InvalidUsage
                      && forall i | 0 <= i < |made| :: reduce(made[i]) == Success))
    decreases |calls|
  {
    if calls == [] {
    } else if calls[0].comm.inner.Some? && reduce(calls[0]) == Success {
      FirstFailureMeaning(reduce, calls[1..]);
      FirstFailureCons(reduce, calls);
    }
  }

  lemma FirstFailureCons(reduce: Pending -> Nccl, calls: seq<Pending>)
    requires calls != [] && calls[0].comm.inner.Some? && reduce(calls[0]) == Success
    ensures var rest := FirstFailure(reduce, calls[1..]);
            FirstFailure(reduce, calls) == ([calls[0]] + rest.0, rest.1)
  {
  }

  function Reductions(calls: seq<Pending>): (log: seq<ApiCall>)
    ensures |log| == |calls| && forall i | 0 <= i < |log| :: log[i] == Reduced(calls[i])
  {
    seq(|calls|, i requires 0 <= i < |calls| => Reduced(calls[i]))
  }

  /** `made` are the calls made so far, `operation` the failure met, if any. */
  ghost predicate Progress(reduce: Pending -> Nccl, calls: seq<Pending>, i: nat, made: seq<Pending>, operation: Nccl)
    requires i <= |calls|
  {
    if operation == Success
    then FirstFailure(reduce, calls) == (made + FirstFailure(reduce, calls[i..]).0, FirstFailure(reduce, calls[i..]).1)
    else FirstFailure(reduce, calls) == (made, operation)
  }

  lemma ProgressStep(reduce: Pending -> Nccl, calls: seq<Pending>, i: nat, made: seq<Pending>)
    requires i < |calls| && Progress(reduce, calls, i, made, Success)
    ensures calls[i].comm.inner.None? ==> Progress(reduce, calls, i, made, InvalidUsage)
    ensures calls[i].comm.inner.Some? ==> Progress(reduce, calls, i + 1, made + [calls[i]], reduce(calls[i]))
  {
    assert calls[i..][1..] == calls[i + 1..];
    assert made + [] == made;
    Regroup(made, [calls[i]], FirstFailure(reduce, calls[i + 1..]).0);
  }

  lemma LogNext(base: seq<ApiCall>, made: seq<Pending>, call: Pending)
    ensures base + Reductions(made) + [Reduced(call)] == base + Reductions(made + [call])
  {
  }

  /** The result and the log of a native group. A group that started is ended exactly once, after the calls
      that were made, whether or not one failed; the first failure wins over the result of ending. */
  function NativeResult(answers: Answers, calls: seq<Pending>): Nccl {
    var failure := FirstFailure(answers.reduce, calls).1;
    if !answers.loaded then SystemError
    else if answers.startResult != Success then answers.startResult
    else if failure != Success then failure
    else answers.endResult
  }

  function NativeLog(answers: Answers, calls: seq<Pending>): seq<ApiCall> {
    if !answers.loaded then []
    else if answers.startResult != Success then [GroupStarted]
    else [GroupStarted] + Reductions(FirstFailure(answers.reduce, calls).0) + [GroupEnded]
  }

  /** `dispatch_real_native`. */
  method DispatchRealNative(library: RealRccl, calls: seq<Pending>) returns (r: Nccl)
    modifies library
    ensures r == NativeResult(library.answers, calls) && library.log == old(library.log) + NativeLog(library.answers, calls)
    ensures NativeOutcome(library.answers, calls, r, library.log[|old(library.log)|..])
  {
    NativeBatchOutcome(library.answers, calls);
    Suffix(library.log, NativeLog(library.answers, calls));
    r := RunNative(library, calls);
  }

  method RunNative(library: RealRccl, calls: seq<Pending>) returns (r: Nccl)
    modifies library
    ensures r == NativeResult(library.answers, calls) && library.log == old(library.log) + NativeLog(library.answers, calls)
  {
    if !library.answers.loaded { return SystemError; }
    var result := library.GroupStart();
    if result != Success { return result; }
    ghost var base, reduce := library.log, library.answers.reduce;
    var operation := Success;
    var i := 0;
    ghost var made: seq<Pending> := [];
    assert calls[0..] == calls && made + FirstFailure(reduce, calls).0 == FirstFailure(reduce, calls).0;
    while i < |calls| && operation == Success
      invariant 0 <= i <= |calls|
      invariant library.log == base + Reductions(made)
      invariant Progress(reduce, calls, i, made, operation)
      decreases |calls| - i, operation == Success
    {
      ProgressStep(reduce, calls, i, made);
      if calls[i].comm.inner.None? {
        operation := InvalidUsage;
      } else {
        result := library.AllReduce(calls[i]);
        LogNext(base, made, calls[i]);
        made := made + [calls[i]];
        operation := result;
        i := i + 1;
      }
    }
    assert calls[|calls|..] == [] && made + [] == made;
    var end := library.GroupEnd();
    NativeLogIs(old(library.log), made);
    r := if operation != Success then operation else end;
  }

  lemma NativeLogIs(log: seq<ApiCall>, made: seq<Pending>)
    ensures log + [GroupStarted] + Reductions(made) + [GroupEnded] == log + ([GroupStarted] + Reductions(made) + [GroupEnded])
  {
  }

  // ---------------------------------------------------------------- threaded dispatch

  function ThreadResult(answers: Answers, call: Pending): Nccl
    requires Ready(call.comm)
  {
    if answers.deviceReady(call.comm.clique.devices[call.comm.rank]) then answers.reduce(call) else UnhandledCudaError
  }

  function ThreadLog(answers: Answers, call: Pending): seq<ApiCall>
    requires Ready(call.comm)
  {
    if answers.deviceReady(call.comm.clique.devices[call.comm.rank]) then [Reduced(call)] else []
  }

  function ThreadsResult(answers: Answers, pair: seq<Pending>): Nccl
    requires |pair| == 2 && Initialized(pair)
  {
    if !answers.loaded then SystemError
    else if pair[0].comm.inner.None? || pair[1].comm.inner.None? then InvalidUsage
    else if ThreadResult(answers, pair[0]) != Success then ThreadResult(answers, pair[0])
    else ThreadResult(answers, pair[1])
  }

  function ThreadsLog(answers: Answers, pair: seq<Pending>): seq<ApiCall>
    requires |pair| == 2 && Initialized(pair)
  {
    if !answers.loaded || pair[0].comm.inner.None? || pair[1].comm.inner.None? then []
    else if answers.zeroFirst(pair) then ThreadLog(answers, pair[0]) + ThreadLog(answers, pair[1])
    else ThreadLog(answers, pair[1]) + ThreadLog(answers, pair[0])
  }

  /** One worker after the rendezvous. */
  method Worker(library: RealRccl, call: Pending) returns (r: Nccl)
    requires Ready(call.comm)
    modifies library
    ensures r == ThreadResult(library.answers, call) && library.log == old(library.log) + ThreadLog(library.answers, call)
  {
    if !library.answers.deviceReady(call.comm.clique.devices[call.comm.rank]) { return UnhandledCudaError; }
    r := library.AllReduce(call);
  }

  /** `dispatch_real_threaded`: both workers run, in either order, and rank 0's failure wins. */
  method DispatchRealThreaded(library: RealRccl, pair: seq<Pending>) returns (r: Nccl)
    requires |pair| == 2 && Initialized(pair)
    modifies library
    ensures r == ThreadsResult(library.answers, pair) && library.log == old(library.log) + ThreadsLog(library.answers, pair)
    ensures pair[0].comm.rank < pair[1].comm.rank && pair[0].comm.inner.Some? && pair[1].comm.inner.Some? ==>
              ThreadsOutcome(library.answers, pair, r, library.log[|old(library.log)|..])
  {
    Suffix(library.log, ThreadsLog(library.answers, pair));
    if !library.answers.loaded { return SystemError; }
    if pair[0].comm.inner.None? || pair[1].comm.inner.None? { return InvalidUsage; }
    var zero, one;
    if library.answers.zeroFirst(pair) {
      zero := Worker(library, pair[0]);
      one := Worker(library, pair[1]);
    } else {
      one := Worker(library, pair[1]);
      zero := Worker(library, pair[0]);
    }
    r := if zero != Success then zero else one;
  }

  // ---------------------------------------------------------------- dispatching a batch

  function BatchResult(answers: Answers, calls: seq<Pending>): Nccl
    requires Initialized(calls)
  {
    match DispatchOf(calls)
    case Nothing => Success
    case ToD3D12(request, datatype_) => if answers.transport(request, datatype_) then Success else UnhandledCudaError
    case ToNative(native) => NativeResult(answers, native)
    case ToThreads(pair) => ThreadPair(calls); ThreadsResult(answers, pair)
    case Rejected => InvalidUsage
  }

  function BatchLog(answers: Answers, calls: seq<Pending>): seq<ApiCall>
    requires Initialized(calls)
  {
    match DispatchOf(calls)
    case ToNative(native) => NativeLog(answers, native)
    case ToThreads(pair) => ThreadPair(calls); ThreadsLog(answers, pair)
    case _ => []
  }

  function BatchRequests(calls: seq<Pending>): seq<D3D12Request>
    requires Initialized(calls)
  {
    match DispatchOf(calls)
    case ToD3D12(request, datatype_) => [D3D12Request(request, datatype_)]
    case _ => []
  }

  lemma ThreadPair(calls: seq<Pending>)
    requires Initialized(calls) && DispatchOf(calls).ToThreads?
    ensures |DispatchOf(calls).pair| == 2 && Initialized(DispatchOf(calls).pair)
    ensures multiset(DispatchOf(calls).pair) == multiset(calls)
    ensures DispatchOf(calls).pair[0].comm.inner.Some? && DispatchOf(calls).pair[1].comm.inner.Some?
  {
    assert calls == [calls[0], calls[1]];
  }

  /** What dispatching a batch promises, said from its calls alone: exactly what the real library (`sent`) and
      the D3D12 transport (`asked`) are newly handed, and the result. */
  ghost predicate Outcome(answers: Answers, calls: seq<Pending>, r: Nccl, sent: seq<ApiCall>, asked: seq<D3D12Request>)
    requires Initialized(calls)
  {
    if calls == [] then r == Success && sent == [] && asked == []
    else if Suits(calls) then
      && sent == [] && |asked| == 1 && AsksFor(asked[0], calls)
      && r == if answers.transport(asked[0].calls, asked[0].datatype_) then Success else UnhandledCudaError
    else if Paired(calls) && exists c :: c in calls && c.comm.inner.None? then r == InvalidUsage && sent == [] && asked == []
    else if Paired(calls) && calls[0].comm.clique.dispatch == Threaded then asked == [] && ThreadsOutcome(answers, calls, r, sent)
    else asked == [] && NativeOutcome(answers, calls, r, sent)
  }

  /** A request for exactly these two calls: their datatype, and at each rank that rank's buffers and device. */
  ghost predicate AsksFor(request: D3D12Request, calls: seq<Pending>) {
    && |request.calls| == |calls| == 2 && calls[0].comm.rank + calls[1].comm.rank == 1
    && forall i | 0 <= i < 2 ::
         var c := calls[i];
         && request.datatype_ == c.datatype_
         && c.comm.rank < |c.comm.clique.devices|
         && request.calls[c.comm.rank] == RankCall(c.send, c.recv, c.count, c.comm.clique.devices[c.comm.rank], c.stream)
  }

  /** A native group that starts is ended exactly once. Between the two are the calls up to the first failing
      one; that failure, or an unusable next handle, is the result, and otherwise the answer to ending is. */
  ghost predicate NativeOutcome(answers: Answers, calls: seq<Pending>, r: Nccl, sent: seq<ApiCall>) {
    if !answers.loaded then r == SystemError && sent == []
    else if answers.startResult != Success then r == answers.startResult && sent == [GroupStarted]
    else exists n: nat :: NativeUpTo(answers, calls, r, sent, n)
  }

  ghost predicate NativeUpTo(answers: Answers, calls: seq<Pending>, r: Nccl, sent: seq<ApiCall>, n: nat) {
    && n <= |calls| && |sent| == n + 2 && sent[0] == GroupStarted && sent[n + 1] == GroupEnded
    && (forall i | 0 <= i < n :: sent[i + 1] == Reduced(calls[i]) && calls[i].comm.inner.Some?)
    && (forall i | 0 <= i < n - 1 :: answers.reduce(calls[i]) == Success)
    && if n > 0 && answers.reduce(calls[n - 1]) != Success then r == answers.reduce(calls[n - 1])
       else if n < |calls| then calls[n].comm.inner.None? && r == InvalidUsage
       else r == answers.endResult
  }

  /** Both workers run; each call reaches the library once if its device could be selected; the lower rank's
      failure wins. */
  ghost predicate ThreadsOutcome(answers: Answers, calls: seq<Pending>, r: Nccl, sent: seq<ApiCall>)
    requires |calls| == 2 && Initialized(calls)
  {
    if !answers.loaded then r == SystemError && sent == []
    else
      var (low, high) := if calls[0].comm.rank < calls[1].comm.rank then (calls[0], calls[1]) else (calls[1], calls[0]);
      var lowReady := answers.deviceReady(low.comm.clique.devices[low.comm.rank]);
      var highReady := answers.deviceReady(high.comm.clique.devices[high.comm.rank]);
      var lowSent, highSent := if lowReady then [Reduced(low)] else [], if highReady then [Reduced(high)] else [];
      var lowResult := if lowReady then answers.reduce(low) else UnhandledCudaError;
      var highResult := if highReady then answers.reduce(high) else UnhandledCudaError;
      && (sent == lowSent + highSent || sent == highSent + lowSent)
      && r == if lowResult != Success then lowResult else highResult
  }

  lemma BatchOutcome(answers: Answers, calls: seq<Pending>)
    requires Initialized(calls)
    ensures Outcome(answers, calls, BatchResult(answers, calls), BatchLog(answers, calls), BatchRequests(calls))
  {
    D3D12Exactly(calls);
    if DispatchOf(calls).ToD3D12? {
      D3D12Outcome(calls);
    } else {
      OtherwiseExactly(calls);
      if DispatchOf(calls).ToNative? {
        NativeBatchOutcome(answers, calls);
      } else if DispatchOf(calls).ToThreads? {
        ThreadPair(calls);
        ThreadedBatchOutcome(answers, calls);
      }
    }
  }

  lemma D3D12Outcome(calls: seq<Pending>)
    requires Initialized(calls) && DispatchOf(calls).ToD3D12?
    ensures |BatchRequests(calls)| == 1 && AsksFor(BatchRequests(calls)[0], calls)
  {
    D3D12Exactly(calls);
  }

  lemma NativeBatchOutcome(answers: Answers, calls: seq<Pending>)
    ensures NativeOutcome(answers, calls, NativeResult(answers, calls), NativeLog(answers, calls))
  {
    if answers.loaded && answers.startResult == Success {
      FirstFailureMeaning(answers.reduce, calls);
      var made := FirstFailure(answers.reduce, calls).0;
      assert NativeUpTo(answers, calls, NativeResult(answers, calls), NativeLog(answers, calls), |made|);
    }
  }

  lemma ThreadedBatchOutcome(answers: Answers, calls: seq<Pending>)
    requires Initialized(calls) && DispatchOf(calls).ToThreads? && |DispatchOf(calls).pair| == 2 && Initialized(DispatchOf(calls).pair)
    requires DispatchOf(calls).pair[0].comm.inner.Some? && DispatchOf(calls).pair[1].comm.inner.Some?
    ensures ThreadsOutcome(answers, calls, ThreadsResult(answers, DispatchOf(calls).pair), ThreadsLog(answers, DispatchOf(calls).pair))
  {
  }

  /** `dispatch_group`. */
  method DispatchGroup(library: RealRccl, transport: D3D12Transport, calls: seq<Pending>) returns (r: Nccl)
    requires Initialized(calls) && library.answers == transport.answers
    modifies library, transport
    ensures r == BatchResult(library.answers, calls)
    ensures library.log == old(library.log) + BatchLog(library.answers, calls)
    ensures transport.log == old(transport.log) + BatchRequests(calls)
    ensures Outcome(library.answers, calls, r, library.log[|old(library.log)|..], transport.log[|old(transport.log)|..])
  {
    BatchOutcome(library.answers, calls);
    match DispatchOf(calls) {
      case Nothing => r := Success;
      case ToD3D12(request, datatype_) =>
        var ok := transport.AllReduce(request, datatype_);
        r := if ok then Success else UnhandledCudaError;
      case ToNative(native) => r := DispatchRealNative(library, native);
      case ToThreads(pair) =>
        ThreadPair(calls);
        r := DispatchRealThreaded(library, pair);
      case Rejected => r := InvalidUsage;
    }
    Suffix(old(library.log), BatchLog(library.answers, calls));
    Suffix(old(transport.log), BatchRequests(calls));
  }

  lemma Suffix<T>(s: seq<T>, t: seq<T>)
    ensures (s + t)[|s|..] == t
  {
  }

  /** The calls a log shows the real library was handed. */
  function CallsIn(log: seq<ApiCall>): seq<Pending> {
    if log == [] then []
    else
      var n := |log| - 1;
      CallsIn(log[..n]) + if log[n].Reduced? then [log[n].call] else []
  }

  lemma {:induction false} CallsInConcat(a: seq<ApiCall>, b: seq<ApiCall>)
    ensures CallsIn(a + b) == CallsIn(a) + CallsIn(b)
    decreases |b|
  {
    if b == [] {
      assert a + b == a;
    } else {
      var n := |b| - 1;
      assert (a + b)[..|a| + n] == a + b[..n];
      CallsInConcat(a, b[..n]);
    }
  }

  lemma {:induction false} CallsInReductions(calls: seq<Pending>)
    ensures CallsIn(Reductions(calls)) == calls
  {
    if calls == [] {
    } else {
      var n := |calls| - 1;
      CallsInReductions(calls[..n]);
      assert Reductions(calls)[..n] == Reductions(calls[..n]);
    }
  }

  /** The calls of a batch that reach a backend: those the library was handed, or all of a D3D12 pair. */
  function Received(answers: Answers, calls: seq<Pending>): multiset<Pending>
    requires Initialized(calls)
  {
    multiset(CallsIn(BatchLog(answers, calls))) + if BatchRequests(calls) != [] then multiset(calls) else multiset{}
  }

  /** A batch that reports success delivered each of its calls exactly once. */
  lemma SuccessDeliversAll(answers: Answers, calls: seq<Pending>)
    requires Initialized(calls) && BatchResult(answers, calls) == Success
    ensures Received(answers, calls) == multiset(calls)
  {
    if DispatchOf(calls).ToNative? {
      NativeBatch(answers, calls);
    } else if DispatchOf(calls).ToThreads? {
      ThreadedBatch(answers, calls);
    }
  }

  lemma NativeBatch(answers: Answers, calls: seq<Pending>)
    requires Initialized(calls) && DispatchOf(calls).ToNative? && BatchResult(answers, calls) == Success
    ensures Received(answers, calls) == multiset(calls)
  {
    assert DispatchOf(calls).native == calls;
    NativeDelivers(answers, calls);
  }

  lemma ThreadedBatch(answers: Answers, calls: seq<Pending>)
    requires Initialized(calls) && DispatchOf(calls).ToThreads? && BatchResult(answers, calls) == Success
    ensures Received(answers, calls) == multiset(calls)
  {
    ThreadPair(calls);
    ThreadsDeliver(answers, DispatchOf(calls).pair);
  }

  lemma NativeDelivers(answers: Answers, calls: seq<Pending>)
    requires NativeResult(answers, calls) == Success
    ensures CallsIn(NativeLog(answers, calls)) == calls
  {
    FirstFailureMeaning(answers.reduce, calls);
    var made := FirstFailure(answers.reduce, calls).0;
    CallsInConcat([GroupStarted] + Reductions(made), [GroupEnded]);
    CallsInConcat([GroupStarted], Reductions(made));
    CallsInReductions(made);
    CallsInOne(GroupStarted);
    CallsInOne(GroupEnded);
  }

  lemma CallsInOne(a: ApiCall)
    ensures CallsIn([a]) == if a.Reduced? then [a.call] else []
  {
    assert [a][..0] == [];
  }

  lemma ThreadsDeliver(answers: Answers, pair: seq<Pending>)
    requires |pair| == 2 && Initialized(pair) && ThreadsResult(answers, pair) == Success
    ensures multiset(CallsIn(ThreadsLog(answers, pair))) == multiset(pair)
  {
    if ThreadLog(answers, pair[0]) == [Reduced(pair[0])] && ThreadLog(answers, pair[1]) == [Reduced(pair[1])] {
      CallsInConcat([Reduced(pair[0])], [Reduced(pair[1])]);
      CallsInConcat([Reduced(pair[1])], [Reduced(pair[0])]);
      CallsInOne(Reduced(pair[0]));
      CallsInOne(Reduced(pair[1]));
      assert pair == [pair[0]] + [pair[1]];
    }
  }

  // ---------------------------------------------------------------- groups

  datatype Event = Start | Reduce(call: Pending) | End

  /** The thread's group state; `batches` is what was handed to `dispatch_group`, in order. */
  datatype Group = Group(depth: nat, calls: seq<Pending>, batches: seq<seq<Pending>>)

  const NO_GROUP := Group(0, [], [])

  function GroupStep(g: Group, e: Event): Group {
    match e
    case Start => g.(depth := g.depth + 1, calls := if g.depth == 0 then [] else g.calls)
    case Reduce(c) => if g.depth > 0 then g.(calls := g.calls + [c]) else g
    case End =>
      if g.depth == 0 then g
      else if g.depth > 1 then g.(depth := g.depth - 1)
      else Group(0, [], g.batches + [g.calls])
  }

  function GroupAfter(events: seq<Event>): Group {
    if events == [] then NO_GROUP
    else GroupStep(GroupAfter(events[..|events| - 1]), events[|events| - 1])
  }

  /** A call outside every group goes straight to the real library, if its handle wraps one and it is loaded. */
  predicate GoesDirect(answers: Answers, c: Pending) {
    c.comm.inner.Some? && answers.loaded
  }

  /** Everything the two backends have been handed. */
  datatype Backends = Backends(library: seq<ApiCall>, transport: seq<D3D12Request>)

  predicate LiveHandles(events: seq<Event>) {
    forall i | 0 <= i < |events| && events[i].Reduce? :: Ready(events[i].call.comm)
  }

  lemma {:induction false} QueueInitialized(events: seq<Event>)
    requires LiveHandles(events)
    ensures Initialized(GroupAfter(events).calls)
    ensures forall i | 0 <= i < |GroupAfter(events).batches| :: Initialized(GroupAfter(events).batches[i])
  {
    if events == [] {
    } else {
      QueueInitialized(events[..|events| - 1]);
    }
  }

  function BackendsAfter(answers: Answers, events: seq<Event>): Backends
    requires LiveHandles(events)
  {
    if events == [] then Backends([], [])
    else
      var n := |events| - 1;
      var g, b := GroupAfter(events[..n]), BackendsAfter(answers, events[..n]);
      match events[n]
      case Start => b
      case Reduce(c) => if g.depth > 0 then b else Backends(b.library + if GoesDirect(answers, c) then [Reduced(c)] else [], b.transport)
      case End =>
        if g.depth != 1 then b
        else
          QueueInitialized(events[..n]);
          Backends(b.library + BatchLog(answers, g.calls), b.transport + BatchRequests(g.calls))
  }

  /** The thread's group state and the backends it hands work to. `events` is the history of its calls. */
  class ThreadGroup {
    const library: RealRccl
    const transport: D3D12Transport
    var depth: nat
    var calls: seq<Pending>
    ghost var events: seq<Event>

    constructor (library: RealRccl, transport: D3D12Transport)
      requires library.answers == transport.answers && library.log == [] && transport.log == []
      ensures this.library == library && this.transport == transport && events == [] && Valid()
    {
      this.library, this.transport := library, transport;
      depth, calls, events := 0, [], [];
    }

    /** Depth, queue and both logs are those of the history. */
    ghost predicate Valid()
      reads this, library, transport
    {
      && library.answers == transport.answers && LiveHandles(events)
      && depth == GroupAfter(events).depth && calls == GroupAfter(events).calls
      && library.log == BackendsAfter(library.answers, events).library
      && transport.log == BackendsAfter(library.answers, events).transport
    }

    method GroupStart() returns (r: Nccl)
      requires Valid()
      modifies this
      ensures Valid() && events == old(events) + [Start] && r == Success
      ensures depth == old(depth) + 1 && calls == if old(depth) == 0 then [] else old(calls)
    {
      if depth == 0 { calls := []; }
      depth := depth + 1;
      events := events + [Start];
      LastEvent(library.answers, old(events), Start);
      r := Success;
    }

    /** In-group calls are queued; outside a group the result is that of the direct call. */
    method AllReduce(call: Pending, valid: bool) returns (r: Nccl)
      requires Valid() && (valid ==> Ready(call.comm))
      modifies this, library
      ensures Valid() && events == if valid then old(events) + [Reduce(call)] else old(events)
      ensures !valid ==> r == InvalidArgument
      ensures valid && old(depth) > 0 ==> r == Success && depth == old(depth) && calls == old(calls) + [call]
      ensures !(valid && old(depth) > 0) ==> depth == old(depth) && calls == old(calls)
      ensures valid && old(depth) == 0 ==>
                r == if call.comm.inner.None? then InvalidUsage
                     else if !library.answers.loaded then SystemError
                     else library.answers.reduce(call)
      ensures if valid && old(depth) == 0 && call.comm.inner.Some? && library.answers.loaded
              then library.log == old(library.log) + [Reduced(call)]
              else library.log == old(library.log)
    {
      if !valid { return InvalidArgument; }
      events := events + [Reduce(call)];
      LastEvent(library.answers, old(events), Reduce(call));
      if depth > 0 {
        calls := calls + [call];
        return Success;
      }
      if call.comm.inner.None? { return InvalidUsage; }
      if !library.answers.loaded { return SystemError; }
      r := library.AllReduce(call);
    }

    /** The End of an outermost group dispatches its batch and returns the result of that. */
    method GroupEnd() returns (r: Nccl)
      requires Valid() && library.answers == transport.answers
      modifies this, library, transport
      ensures Valid() && events == old(events) + [End]
      ensures old(library.log) <= library.log && old(transport.log) <= transport.log
      ensures old(depth) == 0 ==> r == InvalidUsage && depth == 0 && calls == old(calls)
      ensures old(depth) > 1 ==> r == Success && depth == old(depth) - 1 && calls == old(calls)
      ensures old(depth) != 1 ==> library.log == old(library.log) && transport.log == old(transport.log)
      ensures old(depth) == 1 ==>
                && depth == 0 && calls == [] && Initialized(old(calls))
                && Outcome(library.answers, old(calls), r, library.log[|old(library.log)|..], transport.log[|old(transport.log)|..])
    {
      events := events + [End];
      LastEvent(library.answers, old(events), End);
      if depth == 0 { return InvalidUsage; }
      depth := depth - 1;
      if depth > 0 { return Success; }
      r := DispatchGroup(library, transport, calls);
      calls := [];
    }
  }

  /** What one more event adds. */
  lemma LastEvent(answers: Answers, events: seq<Event>, e: Event)
    requires LiveHandles(events) && (e.Reduce? ==> Ready(e.call.comm))
    ensures LiveHandles(events + [e]) && Initialized(GroupAfter(events).calls)
    ensures GroupAfter(events + [e]) == GroupStep(GroupAfter(events), e)
    ensures var g, b := GroupAfter(events), BackendsAfter(answers, events);
            BackendsAfter(answers, events + [e]) ==
            match e
            case Start => b
            case Reduce(c) => if g.depth > 0 then b else Backends(b.library + if GoesDirect(answers, c) then [Reduced(c)] else [], b.transport)
            case End => if g.depth != 1 then b else Backends(b.library + BatchLog(answers, g.calls), b.transport + BatchRequests(g.calls))
  {
    QueueInitialized(events);
    assert (events + [e])[..|events|] == events;
  }

  /** Nesting depth after some events, ignoring unmatched Ends. */
  function Depth(events: seq<Event>): nat {
    if events == [] then 0
    else
      var d := Depth(events[..|events| - 1]);
      match events[|events| - 1]
      case Start => d + 1
      case End => if d > 0 then d - 1 else 0
      case Reduce(_) => d
  }

  /** The calls made inside some group, in order. */
  function InGroup(events: seq<Event>): seq<Pending> {
    if events == [] then []
    else
      var before := events[..|events| - 1];
      match events[|events| - 1]
      case Reduce(c) => if Depth(before) > 0 then InGroup(before) + [c] else InGroup(before)
      case _ => InGroup(before)
  }

  /** How often an outermost group was closed. */
  function Closings(events: seq<Event>): nat {
    if events == [] then 0
    else
      var before := events[..|events| - 1];
      Closings(before) + if events[|events| - 1].End? && Depth(before) == 1 then 1 else 0
  }

  /** For every sequence of events: every in-group call is dispatched exactly once and in order, one batch
      per closed outermost group; outside groups nothing is queued. */
  lemma {:induction false} EveryCallDispatchedOnce(events: seq<Event>)
    ensures var g := GroupAfter(events);
            && g.depth == Depth(events)
            && Flatten(g.batches) + g.calls == InGroup(events)
            && |g.batches| == Closings(events)
            && (g.depth == 0 ==> g.calls == [] && Flatten(g.batches) == InGroup(events))
    decreases |events|
  {
    if events != [] {
      var n := |events| - 1;
      EveryCallDispatchedOnce(events[..n]);
      var g := GroupAfter(events[..n]);
      if events[n].End? && g.depth == 1 {
        assert (g.batches + [g.calls])[..|g.batches|] == g.batches;
      }
    }
  }

  /** Calls outside every group that the real library was handed. */
  function Direct(answers: Answers, events: seq<Event>): seq<Pending> {
    if events == [] then []
    else
      var before := events[..|events| - 1];
      match events[|events| - 1]
      case Reduce(c) =>
        if Depth(before) == 0 && c.comm.inner.Some? && answers.loaded then Direct(answers, before) + [c] else Direct(answers, before)
      case _ => Direct(answers, before)
  }

  ghost predicate AllSucceeded(answers: Answers, batches: seq<seq<Pending>>) {
    forall i | 0 <= i < |batches| :: Initialized(batches[i]) && BatchResult(answers, batches[i]) == Success
  }

  /** The calls of the batches that went to D3D12. */
  function Transported(batches: seq<seq<Pending>>): seq<Pending>
    requires forall i | 0 <= i < |batches| :: Initialized(batches[i])
  {
    if batches == [] then []
    else
      var n := |batches| - 1;
      Transported(batches[..n]) + if BatchRequests(batches[n]) != [] then batches[n] else []
  }

  /** Lifted to the backends: over every event sequence whose batches succeeded, the calls handed to the real
      library together with the calls handed to the transport are exactly, each once, the direct calls and the
      in-group calls that are no longer queued. */
  lemma {:induction false} EveryCallReceivedOnce(answers: Answers, events: seq<Event>)
    requires LiveHandles(events) && AllSucceeded(answers, GroupAfter(events).batches)
    ensures var g, b := GroupAfter(events), BackendsAfter(answers, events);
            Balanced(b.library, g.batches, g.calls, InGroup(events), Direct(answers, events))
    decreases |events|
  {
    if events == [] {
    } else {
      var n := |events| - 1;
      var before, e := events[..n], events[n];
      assert events == before + [e];
      LastEvent(answers, before, e);
      LastCalls(answers, before, e);
      DepthsAgree(before);
      BatchesOnlyGrow(answers, GroupAfter(before), e);
      EveryCallReceivedOnce(answers, before);
      StepBalances(answers, GroupAfter(before), BackendsAfter(answers, before), InGroup(before), Direct(answers, before), e);
    }
  }

  lemma DepthsAgree(events: seq<Event>)
    ensures var g := GroupAfter(events); g.depth == Depth(events) && (g.depth == 0 ==> g.calls == [])
  {
    EveryCallDispatchedOnce(events);
  }

  lemma StepBalances(answers: Answers, g: Group, b: Backends, inGroup: seq<Pending>, direct: seq<Pending>, e: Event)
    requires Balanced(b.library, g.batches, g.calls, inGroup, direct)
    requires Initialized(g.calls) && (g.depth == 0 ==> g.calls == [])
    requires e.End? && g.depth == 1 ==> BatchResult(answers, g.calls) == Success
    ensures var g' := GroupStep(g, e);
            match e
            case Start => Balanced(b.library, g'.batches, g'.calls, inGroup, direct)
            case Reduce(c) =>
              if g.depth > 0 then Balanced(b.library, g'.batches, g'.calls, inGroup + [c], direct)
              else Balanced(b.library + if GoesDirect(answers, c) then [Reduced(c)] else [], g'.batches, g'.calls, inGroup,
                            direct + if GoesDirect(answers, c) then [c] else [])
            case End =>
              Balanced(if g.depth == 1 then b.library + BatchLog(answers, g.calls) else b.library, g'.batches, g'.calls, inGroup, direct)
  {
    match e
    case Start =>
    case Reduce(c) =>
      if g.depth > 0 {
        QueueBalances(b.library, g.batches, g.calls, inGroup, direct, c);
      } else if GoesDirect(answers, c) {
        DirectBalances(b.library, g.batches, g.calls, inGroup, direct, c);
      } else {
        AppendNothing(b.library);
        AppendNothing(direct);
      }
    case End =>
      if g.depth == 1 {
        ClosingBalances(answers, b.library, g.batches, g.calls, inGroup, direct);
      }
  }

  lemma QueueBalances(library: seq<ApiCall>, batches: seq<seq<Pending>>, queue: seq<Pending>, inGroup: seq<Pending>, direct: seq<Pending>, c: Pending)
    requires Balanced(library, batches, queue, inGroup, direct)
    ensures Balanced(library, batches, queue + [c], inGroup + [c], direct)
  {
    BothGain(multiset(CallsIn(library)), multiset(Transported(batches)), multiset(queue), multiset(inGroup), multiset(direct), multiset([c]));
  }

  lemma DirectBalances(library: seq<ApiCall>, batches: seq<seq<Pending>>, queue: seq<Pending>, inGroup: seq<Pending>, direct: seq<Pending>, c: Pending)
    requires Balanced(library, batches, queue, inGroup, direct)
    ensures Balanced(library + [Reduced(c)], batches, queue, inGroup, direct + [c])
  {
    CallsInConcat(library, [Reduced(c)]);
    CallsInOne(Reduced(c));
    BothGain(multiset(CallsIn(library)), multiset(Transported(batches)), multiset(queue), multiset(inGroup), multiset(direct), multiset([c]));
  }

  /** Adding the same elements on both sides keeps a balance. */
  lemma BothGain<T>(a: multiset<T>, t: multiset<T>, q: multiset<T>, i: multiset<T>, d: multiset<T>, x: multiset<T>)
    requires a + t + q == i + d
    ensures a + t + (q + x) == i + x + d
    ensures a + x + t + q == i + (d + x)
  {
    assert a + t + (q + x) == a + t + q + x;
    assert a + x + t + q == a + t + q + x;
    assert i + x + d == i + d + x && i + (d + x) == i + d + x;
  }

  /** Delivered and queued calls are the in-group calls and the direct ones, each as often. */
  ghost predicate Balanced(library: seq<ApiCall>, batches: seq<seq<Pending>>, queue: seq<Pending>, inGroup: seq<Pending>, direct: seq<Pending>) {
    && (forall i | 0 <= i < |batches| :: Initialized(batches[i]))
    && multiset(CallsIn(library)) + multiset(Transported(batches)) + multiset(queue) == multiset(inGroup) + multiset(direct)
  }

  lemma BatchesOnlyGrow(answers: Answers, g: Group, e: Event)
    requires AllSucceeded(answers, GroupStep(g, e).batches)
    ensures AllSucceeded(answers, g.batches)
    ensures e.End? && g.depth == 1 ==> Initialized(g.calls) && BatchResult(answers, g.calls) == Success
  {
    var batches := GroupStep(g, e).batches;
    assert forall i | 0 <= i < |g.batches| :: batches[i] == g.batches[i];
    if e.End? && g.depth == 1 {
      assert batches[|g.batches|] == g.calls;
    }
  }

  lemma LastCalls(answers: Answers, events: seq<Event>, e: Event)
    ensures InGroup(events + [e]) == InGroup(events) + if e.Reduce? && Depth(events) > 0 then [e.call] else []
    ensures Direct(answers, events + [e]) ==
            Direct(answers, events) + if e.Reduce? && Depth(events) == 0 && GoesDirect(answers, e.call) then [e.call] else []
  {
    assert (events + [e])[..|events|] == events;
  }

  /** Closing a group moves its calls from the queue to a backend. */
  lemma ClosingBalances(answers: Answers, library: seq<ApiCall>, batches: seq<seq<Pending>>, queue: seq<Pending>, inGroup: seq<Pending>, direct: seq<Pending>)
    requires Balanced(library, batches, queue, inGroup, direct) && Initialized(queue) && BatchResult(answers, queue) == Success
    ensures Balanced(library + BatchLog(answers, queue), batches + [queue], [], inGroup, direct)
  {
    SuccessDeliversAll(answers, queue);
    CallsInConcat(library, BatchLog(answers, queue));
    TransportedNext(batches, queue);
  }

  lemma TransportedNext(batches: seq<seq<Pending>>, queue: seq<Pending>)
    requires (forall i | 0 <= i < |batches| :: Initialized(batches[i])) && Initialized(queue)
    ensures forall i | 0 <= i < |batches + [queue]| :: Initialized((batches + [queue])[i])
    ensures Transported(batches + [queue]) == Transported(batches) + if BatchRequests(queue) != [] then queue else []
  {
    assert (batches + [queue])[..|batches|] == batches;
  }

  /** The calls of a group body, whatever nested groups they are in. */
  function CallsOf(body: seq<Event>): seq<Pending> {
    if body == [] then []
    else
      var n := |body| - 1;
      CallsOf(body[..n]) + if body[n].Reduce? then [body[n].call] else []
  }

  /** Groups begun minus groups ended. */
  function Nesting(body: seq<Event>): int {
    if body == [] then 0
    else
      var n := |body| - 1;
      Nesting(body[..n]) + if body[n].Start? then 1 else if body[n].End? then -1 else 0
  }

  lemma {:induction false} InsideKeepsBatches(events: seq<Event>, body: seq<Event>)
    requires forall n | 0 <= n <= |body| :: GroupAfter(events).depth + Nesting(body[..n]) >= 1
    ensures var g, h := GroupAfter(events), GroupAfter(events + body);
            h.batches == g.batches && h.calls == g.calls + CallsOf(body) && h.depth == g.depth + Nesting(body)
    decreases |body|
  {
    if body == [] {
      assert events + body == events;
      AppendNothing(GroupAfter(events).calls);
    } else {
      var n := |body| - 1;
      assert forall m | 0 <= m <= n :: body[..n][..m] == body[..m];
      InsideKeepsBatches(events, body[..n]);
      assert body[..|body|] == body && events + body[..n] + [body[n]] == events + body;
      GroupAppend(events + body[..n], body[n]);
      Regroup(GroupAfter(events).calls, CallsOf(body[..n]), if body[n].Reduce? then [body[n].call] else []);
    }
  }

  /** A call is dispatched at its own outermost End and nowhere else: a group with any nesting inside
      adds exactly one batch, holding exactly the calls made between its Start and its End. */
  lemma OutermostGroupIsOneBatch(events: seq<Event>, body: seq<Event>)
    requires Depth(events) == 0 && Nesting(body) == 0 && forall n | 0 <= n <= |body| :: Nesting(body[..n]) >= 0
    ensures GroupAfter(events + [Start] + body + [End]) == Group(0, [], GroupAfter(events).batches + [CallsOf(body)])
  {
    EveryCallDispatchedOnce(events);
    GroupAppend(events, Start);
    InsideKeepsBatches(events + [Start], body);
    GroupAppend(events + [Start] + body, End);
    var none: seq<Pending> := [];
    assert none + CallsOf(body) == CallsOf(body);
  }

  lemma GroupAppend(events: seq<Event>, e: Event)
    ensures GroupAfter(events + [e]) == GroupStep(GroupAfter(events), e)
  {
    assert (events + [e])[..|events|] == events;
  }

  /** An End without a Start changes nothing at all. */
  lemma UnmatchedEndIsIgnored(events: seq<Event>)
    requires Depth(events) == 0
    ensures GroupAfter(events + [End]) == GroupAfter(events)
  {
    EveryCallDispatchedOnce(events);
    assert (events + [End])[..|events|] == events;
  }
}
