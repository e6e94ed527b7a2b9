/**
 * Form helpers (helpers/form.ts): the change events a form reacts to, the
 * mapping of a transaction's stream of states onto UI values, and the
 * one-shot gas estimation of a form state.
 *
 * Streams are modelled as finite sequences of the values they emit, in
 * order; a handler that returns an observable is modelled as a function
 * returning the finite sequence that observable emits.
 */
module Form {
  import opened Wrappers

  // ---------------------------------------------------------------------
  // Change events
  // ---------------------------------------------------------------------

  datatype FormStage = Idle | Blocked

  /** The progress stages of a form; ApprovalStage is 'waitingForApproval', ConfirmationStage 'waitingForConfirmation'. */
  datatype ProgressStage = ApprovalStage | ConfirmationStage | Fiasco | Done | Canceled

  /** The tag carried by every form change (the string each stands for is beside it). */
  datatype FormChangeKind =
    | KindChange            // 'kind'
    | PriceFieldChange      // 'price'
    | AmountFieldChange     // 'amount'
    | TotalFieldChange      // 'total'
    | SetMaxChange          // 'setMax'
    | GasPriceChange        // 'gasPrice'
    | EtherPriceUSDChange   // 'etherPriceUSDChange'
    | SellAllowanceChange   // 'sellAllowance'
    | BuyAllowanceChange    // 'buyAllowance'
    | FormStageChange       // 'stage'
    | FormResetChange       // 'reset'
    | OrderbookChange       // 'orderbook'
    | BalancesChange        // 'balancesChange'
    | TokenChange           // 'tokenChange'
    | DustLimitChange       // 'dustLimitChange'
    | UserChange            // 'userChange'
    | MatchTypeChange       // 'matchType'
    | PickOfferChange       // 'pickOffer'
    | Progress              // 'progress'
    | EtherBalanceChange    // 'etherBalanceChange'
    | SlippageLimitChange   // 'slippageLimitChange'
    | ViewChange            // 'viewChange'
    | AccountChange         // 'accountChange'
    | OrdersChange          // 'ordersChange'
    | CheckboxChange        // 'checkboxChange'

  datatype StageChange = StageChange(kind: FormChangeKind, stage: FormStage)

  /** A progress change; `progress` is optional in the application. */
  datatype ProgressChange = ProgressChange(kind: FormChangeKind, progress: Option<ProgressStage>)

  /** The stage-change event: tagged as a stage change, carrying the stage it was given. */
  function FormStageChangeTo(stage: FormStage): (c: StageChange)
    ensures c.kind == FormStageChange && c.stage == stage
  {
    StageChange(FormStageChange, stage)
  }

  /** The progress-change event: tagged as progress, carrying the (possibly absent) stage. */
  function ProgressChangeTo(progress: Option<ProgressStage>): (c: ProgressChange)
    ensures c.kind == Progress && c.progress == progress
  {
    ProgressChange(Progress, progress)
  }

  // ---------------------------------------------------------------------
  // Transaction states to UI values
  // ---------------------------------------------------------------------

  /** The statuses of the transaction-state library. */
  datatype TxStatus =
    | WaitingForApproval
    | CancelledByTheUser
    | Propagating
    | WaitingForConfirmation
    | Success
    | Error
    | Failure

  /**
   * One emitted transaction state. `confirmations` is only consulted when
   * the status is Success; `meta` is the caller's metadata, handed to handlers.
   */
  datatype TxState<M> = TxState(status: TxStatus, confirmations: nat, meta: M)

  /** An argument that is either a plain value or a function of the state. */
  datatype Handler<X, !M> = Value(x: X) | Emitter(f: TxState<M> -> seq<X>)

  /** The arguments of transactionToX; applying it to a stream is TransactionToX. */
  datatype TxPipeline<X, !M> = TxPipeline(
    startWithX: X,
    waitingForConfirmationX: Handler<X, M>,
    fiascoX: Handler<X, M>,
    successHandler: Option<TxState<M> -> seq<X>>,
    confirmations: int)

  /** The default of the `confirmations` argument. */
  const DefaultConfirmations: int := 0

  predicate IsFiasco(s: TxStatus) {
    s.CancelledByTheUser? || s.Failure? || s.Error?
  }

  predicate IsPending(s: TxStatus) {
    s.Propagating? || s.WaitingForConfirmation?
  }

  /** The predicate handed to takeWhileInclusive: true while more states are to be read. */
  predicate KeepsGoing<M>(s: TxState<M>, confirmations: int) {
    (s.status.Success? && s.confirmations < confirmations) || !s.status.Success?
  }

  /**
   * takeWhileInclusive: the states read, up to and including the first one
   * that does not keep the stream going. The contract determines the result
   * uniquely (see ConsumedIsFirstEnd and ConsumedAllWhenNoEnd).
   */
  function Consumed<M>(states: seq<TxState<M>>, confirmations: int): (r: seq<TxState<M>>)
    ensures |r| <= |states| && r == states[..|r|]
    ensures forall i :: 0 <= i < |r| - 1 ==> KeepsGoing(r[i], confirmations)
    ensures |r| < |states| ==> r != [] && !KeepsGoing(r[|r| - 1], confirmations)
  {
    if states == [] then []
    else if KeepsGoing(states[0], confirmations) then [states[0]] + Consumed(states[1..], confirmations)
    else [states[0]]
  }

  /** The values a handler argument emits for a state. */
  function Emit<X, M>(h: Handler<X, M>, s: TxState<M>): seq<X> {
    match h
    case Value(x) => [x]
    case Emitter(f) => f(s)
  }

  /** The switch inside the flatMap: what a single state is mapped to. */
  function Outputs<X, M>(p: TxPipeline<X, M>, s: TxState<M>): (r: seq<X>)
    ensures IsFiasco(s.status) ==> r == Emit(p.fiascoX, s)
    ensures IsPending(s.status) ==> r == Emit(p.waitingForConfirmationX, s)
    ensures s.status.WaitingForApproval? ==> r == []
    ensures s.status.Success? && p.successHandler.None? ==> r == []
    ensures s.status.Success? && p.successHandler.Some? ==> r == p.successHandler.value(s)
  {
    match s.status
    case CancelledByTheUser => Emit(p.fiascoX, s)
    case Failure => Emit(p.fiascoX, s)
    case Error => Emit(p.fiascoX, s)
    case Propagating => Emit(p.waitingForConfirmationX, s)
    case WaitingForConfirmation => Emit(p.waitingForConfirmationX, s)
    case Success => if p.successHandler.Some? then p.successHandler.value(s) else []
    case WaitingForApproval => []
  }

  /** flatMap, with every inner stream emitting all its values before the next state. */
  function FlatMap<X, M>(p: TxPipeline<X, M>, states: seq<TxState<M>>): (r: seq<X>)
    ensures states == [] ==> r == []
    ensures |states| == 1 ==> r == Outputs(p, states[0])
  {
    if states == [] then [] else Outputs(p, states[0]) + FlatMap(p, states[1..])
  }

  /** flatMap distributes over concatenation: each state is mapped on its own, in order. */
  lemma {:induction false} FlatMapOfConcatenation<X, M>(p: TxPipeline<X, M>, a: seq<TxState<M>>, b: seq<TxState<M>>)
    ensures FlatMap(p, a + b) == FlatMap(p, a) + FlatMap(p, b)
  {
    if a != [] {
      assert (a + b)[0] == a[0] && (a + b)[1..] == a[1..] + b;
      FlatMapOfConcatenation(p, a[1..], b);
    } else {
      assert a + b == b;
    }
  }

  /** transactionToX applied to a finite stream of states. */
  function TransactionToX<X, M>(p: TxPipeline<X, M>, states: seq<TxState<M>>): (r: seq<X>)
    ensures |r| >= 1 && r[0] == p.startWithX
    ensures states == [] ==> r == [p.startWithX]
  {
    [p.startWithX] + FlatMap(p, Consumed(states, p.confirmations))
  }

  /** If state k is the first that ends the stream, exactly states[..k+1] are read. */
  lemma ConsumedIsFirstEnd<M>(states: seq<TxState<M>>, confirmations: int, k: nat)
    requires k < |states| && !KeepsGoing(states[k], confirmations)
    requires forall i :: 0 <= i < k ==> KeepsGoing(states[i], confirmations)
    ensures Consumed(states, confirmations) == states[..k + 1]
  {
  }

  /** If no state ends the stream, every state is read. */
  lemma ConsumedAllWhenNoEnd<M>(states: seq<TxState<M>>, confirmations: int)
    requires forall i :: 0 <= i < |states| ==> KeepsGoing(states[i], confirmations)
    ensures Consumed(states, confirmations) == states
  {
  }

  /** With the default threshold, the first Success ends the stream. */
  lemma DefaultThresholdEndsAtFirstSuccess<M>(states: seq<TxState<M>>, k: nat)
    requires k < |states| && states[k].status.Success?
    requires forall i :: 0 <= i < k ==> !states[i].status.Success?
    ensures Consumed(states, DefaultConfirmations) == states[..k + 1]
  {
    ConsumedIsFirstEnd(states, DefaultConfirmations, k);
  }

  lemma {:induction false} ConsumedOfExtension<M>(states: seq<TxState<M>>, more: seq<TxState<M>>, confirmations: int, k: nat)
    requires k < |states| && !KeepsGoing(states[k], confirmations)
    ensures Consumed(states + more, confirmations) == Consumed(states, confirmations)
  {
    assert (states + more)[0] == states[0];
    if KeepsGoing(states[0], confirmations) {
      assert (states + more)[1..] == states[1..] + more;
      ConsumedOfExtension(states[1..], more, confirmations, k - 1);
    }
  }

  /** Nothing after the state that ends the stream is read: appending states changes nothing. */
  lemma NothingAfterEndIsRead<X, M>(p: TxPipeline<X, M>, states: seq<TxState<M>>, more: seq<TxState<M>>, k: nat)
    requires k < |states| && !KeepsGoing(states[k], p.confirmations)
    ensures TransactionToX(p, states + more) == TransactionToX(p, states)
  {
    ConsumedOfExtension(states, more, p.confirmations, k);
  }

  /** The first state decides: it is mapped, and the rest is read only if it keeps the stream going. */
  lemma FirstStateStep<X, M>(p: TxPipeline<X, M>, s: TxState<M>, rest: seq<TxState<M>>)
    ensures TransactionToX(p, [s] + rest) ==
      if KeepsGoing(s, p.confirmations)
      then [p.startWithX] + Outputs(p, s) + TransactionToX(p, rest)[1..]
      else [p.startWithX] + Outputs(p, s)
  {
    var states := [s] + rest;
    assert states[0] == s && states[1..] == rest;
    if KeepsGoing(s, p.confirmations) {
      var c := Consumed(states, p.confirmations);
      assert c == [s] + Consumed(rest, p.confirmations);
      assert c[0] == s && c[1..] == Consumed(rest, p.confirmations);
    } else {
      assert Consumed(states, p.confirmations) == [s];
      assert [s][0] == s && [s][1..] == [];
      assert FlatMap(p, [s]) == Outputs(p, s) + FlatMap(p, []);
    }
  }

  /** Cancelled, failed and errored states give the fiasco value and do not end the stream. */
  lemma FiascoContinues<X, M>(p: TxPipeline<X, M>, s: TxState<M>, rest: seq<TxState<M>>)
    requires IsFiasco(s.status)
    ensures TransactionToX(p, [s] + rest) ==
      [p.startWithX] + Emit(p.fiascoX, s) + TransactionToX(p, rest)[1..]
  {
    FirstStateStep(p, s, rest);
  }

  /** Propagating and waiting-for-confirmation states give the waiting value and do not end the stream. */
  lemma PendingContinues<X, M>(p: TxPipeline<X, M>, s: TxState<M>, rest: seq<TxState<M>>)
    requires IsPending(s.status)
    ensures TransactionToX(p, [s] + rest) ==
      [p.startWithX] + Emit(p.waitingForConfirmationX, s) + TransactionToX(p, rest)[1..]
  {
    FirstStateStep(p, s, rest);
  }

  /** A state waiting for approval produces nothing and does not end the stream. */
  lemma ApprovalIsSilent<X, M>(p: TxPipeline<X, M>, s: TxState<M>, rest: seq<TxState<M>>)
    requires s.status.WaitingForApproval?
    ensures TransactionToX(p, [s] + rest) == TransactionToX(p, rest)
  {
    FirstStateStep(p, s, rest);
  }

  /**
   * A Success with enough confirmations ends the stream: it yields the success
   * handler's values, or nothing when there is no handler, and the rest is not read.
   */
  lemma ConfirmedSuccessEnds<X, M>(p: TxPipeline<X, M>, s: TxState<M>, rest: seq<TxState<M>>)
    requires s.status.Success? && s.confirmations >= p.confirmations
    ensures p.successHandler.None? ==> TransactionToX(p, [s] + rest) == [p.startWithX]
    ensures p.successHandler.Some? ==>
      TransactionToX(p, [s] + rest) == [p.startWithX] + p.successHandler.value(s)
  {
    FirstStateStep(p, s, rest);
  }

  /** A Success short of the threshold is mapped by the success handler and the stream goes on. */
  lemma UnconfirmedSuccessContinues<X, M>(p: TxPipeline<X, M>, s: TxState<M>, rest: seq<TxState<M>>)
    requires s.status.Success? && s.confirmations < p.confirmations
    ensures TransactionToX(p, [s] + rest) ==
      [p.startWithX] + Outputs(p, s) + TransactionToX(p, rest)[1..]
    ensures p.successHandler.None? ==>
      TransactionToX(p, [s] + rest) == TransactionToX(p, rest)
  {
    FirstStateStep(p, s, rest);
  }

  /** The states that produce a value when both handler arguments are plain values and there is no success handler. */
  function Mapped<M>(states: seq<TxState<M>>): seq<TxState<M>> {
    if states == [] then []
    else
      var head := if IsFiasco(states[0].status) || IsPending(states[0].status) then [states[0]] else [];
      head + Mapped(states[1..])
  }

  /** The value shown for a mapped state: the fiasco value for a failed one, the waiting value otherwise. */
  function Label<M, X>(s: TxState<M>, w: X, f: X): X {
    if IsFiasco(s.status) then f else w
  }

  lemma {:induction false} FlatMapOfConstants<X, M>(p: TxPipeline<X, M>, states: seq<TxState<M>>, w: X, f: X)
    requires p.waitingForConfirmationX == Value(w) && p.fiascoX == Value(f) && p.successHandler.None?
    ensures var m := Mapped(states);
      FlatMap(p, states) == seq(|m|, i requires 0 <= i < |m| => Label(m[i], w, f))
  {
    if states != [] {
      FlatMapOfConstants(p, states[1..], w, f);
      var s := states[0];
      var m, m' := Mapped(states), Mapped(states[1..]);
      var rest := FlatMap(p, states[1..]);
      if IsFiasco(s.status) || IsPending(s.status) {
        assert Outputs(p, s) == [Label(s, w, f)];
        assert m == [s] + m';
        assert FlatMap(p, states) == [Label(s, w, f)] + rest;
        assert |FlatMap(p, states)| == |m|;
        forall i | 0 <= i < |m| ensures FlatMap(p, states)[i] == Label(m[i], w, f) {
          if i > 0 {
            assert m[i] == m'[i - 1];
            assert FlatMap(p, states)[i] == rest[i - 1];
          }
        }
      } else {
        assert Outputs(p, s) == [];
        assert m == m';
      }
    }
  }

  /**
   * With plain values for the waiting and fiasco arguments and no success
   * handler, the output is the start value followed by one value per pending
   * or failed state read, in order: the fiasco value for a failed state, the
   * waiting value for a pending one.
   */
  lemma ConstantHandlersEmitOnlyConstants<X, M>(p: TxPipeline<X, M>, states: seq<TxState<M>>, w: X, f: X)
    requires p.waitingForConfirmationX == Value(w) && p.fiascoX == Value(f) && p.successHandler.None?
    ensures var r := TransactionToX(p, states);
      var m := Mapped(Consumed(states, p.confirmations));
      && r[0] == p.startWithX
      && r[1..] == seq(|m|, i requires 0 <= i < |m| => Label(m[i], w, f))
  {
    var c := Consumed(states, p.confirmations);
    FlatMapOfConstants(p, c, w, f);
    assert TransactionToX(p, states)[1..] == FlatMap(p, c);
  }

  // ---------------------------------------------------------------------
  // Gas estimation
  // ---------------------------------------------------------------------

  /** The estimation statuses; EstimationError stands for 'error'. */
  datatype GasEstimationStatus = Unset | Calculating | Calculated | EstimationError | Unknown

  /** A decimal amount; dividing by a zero price gives a non-finite number. */
  datatype Amount = Finite(value: real) | NotFinite

  /**
   * A form state that carries a gas estimation; `other` stands for the
   * fields of the form that the estimation neither reads nor writes.
   */
  datatype GasState<O> = GasState(
    gasEstimationStatus: GasEstimationStatus,
    error: Option<string>,
    gasEstimation: Option<nat>,
    gasEstimationEth: Option<real>,
    gasEstimationUsd: Option<real>,
    gasEstimationDai: Option<Amount>,
    other: O)

  /** The USD prices of the price ticker that the estimation reads. */
  datatype Ticker = Ticker(eth: Option<real>, dai: Option<real>)

  /** The first combined emission of the gas price (in wei) and the ticker. */
  datatype GasInputs = GasInputs(gasPrice: Option<nat>, prices: Ticker)

  /**
   * What the caller's `call` does: return undefined, return a stream that
   * emits a gas figure, throw before returning, or return a stream that errors.
   */
  datatype GasCall = Undefined | Estimates(gas: nat) | Throws(reason: string) | Fails(reason: string)

  const WeiPerEther: real := 1000000000000000000.0

  function AmountFromWei(wei: nat): real {
    wei as real / WeiPerEther
  }

  function Quotient(a: real, b: real): Amount {
    if b == 0.0 then NotFinite else Finite(a / b)
  }

  /**
   * The final emission of doGasEstimation: `inputs` is the first combined
   * emission of the input streams, or the error one of them threw.
   */
  function EstimationOutcome<O>(inputs: Result<GasInputs, string>, state: GasState<O>, call: GasCall): (r: GasState<O>)
    // An error is recorded and nothing else changes: one of the input streams
    // errors, `call` throws, or the stream it returned errors (which is only
    // subscribed to when there is a gas price).
    ensures (inputs.Err? ||
             (state.gasEstimationStatus.Unset? &&
              (call.Throws? || (inputs.value.gasPrice.Some? && call.Fails?)))) ==>
      && r.gasEstimationStatus.EstimationError?
      && r.error == Some(if inputs.Err? then inputs.error else call.reason)
      && r.(gasEstimationStatus := state.gasEstimationStatus, error := state.error) == state
    // A state already estimated (or being estimated) is passed through.
    ensures inputs.Ok? && !state.gasEstimationStatus.Unset? ==> r == state
    // No gas price or no call: the ETH and USD figures are dropped and nothing else changes.
    ensures inputs.Ok? && state.gasEstimationStatus.Unset? && !call.Throws?
            && (inputs.value.gasPrice.None? || call.Undefined?) ==>
      && r.gasEstimationStatus.Unset?
      && r.gasEstimationEth.None? && r.gasEstimationUsd.None?
      && r.(gasEstimationEth := state.gasEstimationEth, gasEstimationUsd := state.gasEstimationUsd) == state
    // A gas figure: the cost in ETH, USD when the ETH price is known, DAI when USD and the DAI price are.
    ensures inputs.Ok? && state.gasEstimationStatus.Unset? && inputs.value.gasPrice.Some? && call.Estimates? ==>
      var prices := inputs.value.prices;
      && r.gasEstimationStatus.Calculated?
      && r.gasEstimation == Some(call.gas)
      && r.gasEstimationEth == Some(AmountFromWei(inputs.value.gasPrice.value * call.gas))
      && (r.gasEstimationUsd.Some? <==> prices.eth.Some?)
      && (r.gasEstimationUsd.Some? ==> r.gasEstimationUsd.value == r.gasEstimationEth.value * prices.eth.value)
      && (r.gasEstimationDai.Some? <==> prices.eth.Some? && prices.dai.Some?)
      && (r.gasEstimationDai.Some? && prices.dai.value != 0.0 ==>
            r.gasEstimationDai.value == Finite(r.gasEstimationUsd.value / prices.dai.value))
      && (r.gasEstimationDai.Some? && prices.dai.value == 0.0 ==> r.gasEstimationDai.value == NotFinite)
      && r.error == state.error && r.other == state.other
  {
    match inputs
    case Err(e) => state.(error := Some(e), gasEstimationStatus := EstimationError)
    case Ok(i) =>
      if !state.gasEstimationStatus.Unset? then state
      else if call.Throws? then
        state.(error := Some(call.reason), gasEstimationStatus := EstimationError)
      else if i.gasPrice.None? || call.Undefined? then
        state.(gasEstimationEth := None, gasEstimationUsd := None, gasEstimationStatus := Unset)
      else if call.Fails? then
        state.(error := Some(call.reason), gasEstimationStatus := EstimationError)
      else
        var gasCost := AmountFromWei(i.gasPrice.value * call.gas);
        var usd := if i.prices.eth.Some? then Some(gasCost * i.prices.eth.value) else None;
        var dai := if usd.Some? && i.prices.dai.Some? then Some(Quotient(usd.value, i.prices.dai.value)) else None;
        state.(
          gasEstimation := Some(call.gas),
          gasEstimationStatus := Calculated,
          gasEstimationEth := Some(gasCost),
          gasEstimationUsd := usd,
          gasEstimationDai := dai)
  }

  /**
   * doGasEstimation: first the input state marked as calculating, then the outcome.
   */
  function DoGasEstimation<O>(inputs: Result<GasInputs, string>, state: GasState<O>, call: GasCall): (r: seq<GasState<O>>)
    ensures |r| == 2
    ensures r[0].gasEstimationStatus.Calculating? && r[0].(gasEstimationStatus := state.gasEstimationStatus) == state
    ensures r[1] == EstimationOutcome(inputs, state, call)
    ensures inputs.Ok? && !state.gasEstimationStatus.Unset? ==> r[1] == state
    ensures state.gasEstimationStatus.Unset? ==> !r[1].gasEstimationStatus.Calculating?
  {
    [state.(gasEstimationStatus := Calculating), EstimationOutcome(inputs, state, call)]
  }

  /**
   * Estimating again, with the same inputs, a state that an estimation produced
   * changes nothing: the outcome is settled.
   */
  lemma EstimationIsIdempotent<O>(inputs: GasInputs, state: GasState<O>, call: GasCall)
    ensures var once := EstimationOutcome(Ok(inputs), state, call);
      EstimationOutcome(Ok(inputs), once, call) == once
  {
  }
}
