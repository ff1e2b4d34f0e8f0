// The State pattern: an online order and an audio player whose behaviour is
// decided by the state they are in. Each state's handlers are one transition
// table; the objects hold the current state and delegate to the table.
module StatePattern {

  /** What a handler returns: a confirmation when the state changed, a warning when it did not. */
  datatype Reply = Done(text: string) | Warning(text: string)

  // ---------------------------------------------------------------------
  // Online order
  // ---------------------------------------------------------------------

  datatype OrderState = Pending | Processing | Shipped | Delivered | Cancelled
  datatype OrderAction = Process | Cancel | Ship | Deliver
  datatype OrderOutcome = OrderOutcome(next: OrderState, reply: Reply)

  /** The state each handler moves to: five moves change the state, every other call keeps it. */
  function OrderNext(s: OrderState, a: OrderAction): OrderState
  {
    match (s, a)
    case (Pending, Process) => Processing
    case (Pending, Cancel) => Cancelled
    case (Processing, Cancel) => Cancelled
    case (Processing, Ship) => Shipped
    case (Shipped, Deliver) => Delivered
    case _ => s
  }

  /** The message each handler returns. */
  function OrderMessage(s: OrderState, a: OrderAction): string
  {
    match (s, a)
    case (Pending, Process) => "✅ Order is now being processed!"
    case (Pending, Cancel) => "❌ Order cancelled."
    case (Pending, Ship) => "⚠️ Can't ship — order hasn't been processed yet!"
    case (Pending, Deliver) => "⚠️ Can't deliver — order hasn't been shipped yet!"
    case (Processing, Process) => "⚠️ Order is already being processed!"
    case (Processing, Cancel) => "❌ Order cancelled during processing."
    case (Processing, Ship) => "📦 Order shipped!"
    case (Processing, Deliver) => "⚠️ Can't deliver — order hasn't been shipped yet!"
    case (Shipped, Process) => "⚠️ Order is already shipped!"
    case (Shipped, Cancel) => "⚠️ Can't cancel — order is already in transit!"
    case (Shipped, Ship) => "⚠️ Order is already shipped!"
    case (Shipped, Deliver) => "🎉 Order delivered successfully!"
    case (Delivered, Process) => "⚠️ Order already delivered — nothing to process!"
    case (Delivered, Cancel) => "⚠️ Can't cancel — order already delivered. Please request a return."
    case (Delivered, Ship) => "⚠️ Order already delivered!"
    case (Delivered, Deliver) => "⚠️ Order was already delivered!"
    case (Cancelled, Process) => "⚠️ Can't process — order was cancelled."
    case (Cancelled, Cancel) => "⚠️ Order is already cancelled."
    case (Cancelled, Ship) => "⚠️ Can't ship — order was cancelled."
    case (Cancelled, Deliver) => "⚠️ Can't deliver — order was cancelled."
  }

  /**
   * The five state classes' `process`, `cancel`, `ship` and `deliver` handlers:
   * a confirmation with the move, a warning without one.
   */
  function OrderStep(s: OrderState, a: OrderAction): (o: OrderOutcome)
    ensures o.reply.Done? <==> o.next != s
  {
    var next := OrderNext(s, a);
    OrderOutcome(next, if next != s then Done(OrderMessage(s, a)) else Warning(OrderMessage(s, a)))
  }

  /** Each state's `get_status`. */
  function OrderLabel(s: OrderState): string
  {
    match s
    case Pending => "📋 PENDING"
    case Processing => "⚙️ PROCESSING"
    case Shipped => "🚚 SHIPPED"
    case Delivered => "✅ DELIVERED"
    case Cancelled => "❌ CANCELLED"
  }

  /** The five allowed moves are the only ones that change the state. */
  lemma OrderTransitions(s: OrderState, a: OrderAction)
    ensures OrderStep(s, a).next != s <==>
      (s == Pending && a == Process) || (s == Pending && a == Cancel) ||
      (s == Processing && a == Cancel) || (s == Processing && a == Ship) ||
      (s == Shipped && a == Deliver)
  {
  }

  /** The only way into each of the forward states. */
  lemma Entering(r: OrderState, a: OrderAction, t: OrderState)
    requires OrderStep(r, a).next == t && r != t
    ensures t == Processing ==> r == Pending && a == Process
    ensures t == Shipped ==> r == Processing && a == Ship
    ensures t == Delivered ==> r == Shipped && a == Deliver
  {
    OrderTransitions(r, a);
  }

  /** An order can only be cancelled before it ships. */
  lemma CancelOnlyBeforeShipping(s: OrderState, a: OrderAction)
    requires s != Cancelled && OrderStep(s, a).next == Cancelled
    ensures a == Cancel && (s == Pending || s == Processing)
  {
  }

  /** The state reached from `s` by the actions `acts`, applied in order. */
  function OrderRun(s: OrderState, acts: seq<OrderAction>): OrderState
    decreases |acts|
  {
    if |acts| == 0 then s else OrderStep(OrderRun(s, acts[..|acts| - 1]), acts[|acts| - 1]).next
  }

  lemma {:induction false} OrderRunAppend(s: OrderState, xs: seq<OrderAction>, ys: seq<OrderAction>)
    ensures OrderRun(s, xs + ys) == OrderRun(OrderRun(s, xs), ys)
    decreases |ys|
  {
    if |ys| == 0 {
      assert xs + ys == xs;
    } else {
      var n := |ys|;
      assert (xs + ys)[..|xs + ys| - 1] == xs + ys[..n - 1];
      assert (xs + ys)[|xs + ys| - 1] == ys[n - 1];
      OrderRunAppend(s, xs, ys[..n - 1]);
    }
  }

  /** Delivered and Cancelled are final: no sequence of actions leaves them. */
  lemma {:induction false} FinalOrderStatesAbsorb(s: OrderState, acts: seq<OrderAction>)
    requires s == Delivered || s == Cancelled
    ensures OrderRun(s, acts) == s
    decreases |acts|
  {
    if |acts| > 0 {
      FinalOrderStatesAbsorb(s, acts[..|acts| - 1]);
    }
  }

  /** A cancelled order is never delivered afterwards, whatever follows. */
  lemma CancelledNeverDelivered(s: OrderState, acts: seq<OrderAction>, i: nat)
    requires i <= |acts| && OrderRun(s, acts[..i]) == Cancelled
    ensures OrderRun(s, acts) == Cancelled
  {
    assert acts == acts[..i] + acts[i..];
    OrderRunAppend(s, acts[..i], acts[i..]);
    FinalOrderStatesAbsorb(Cancelled, acts[i..]);
  }

  /** The position at which a run first enters the state `t`. */
  lemma {:induction false} EntersAt(s: OrderState, acts: seq<OrderAction>, t: OrderState) returns (k: nat)
    requires OrderRun(s, acts) == t && s != t
    ensures k < |acts|
    ensures OrderRun(s, acts[..k]) != t && OrderStep(OrderRun(s, acts[..k]), acts[k]).next == t
    decreases |acts|
  {
    var n := |acts|;
    var front := acts[..n - 1];
    if OrderRun(s, front) != t {
      k := n - 1;
    } else {
      k := EntersAt(s, front, t);
      assert front[..k] == acts[..k];
    }
  }

  /** Every delivered order was processed, then shipped, then delivered, each by an action that succeeded. */
  lemma DeliveredPassedEveryStage(acts: seq<OrderAction>) returns (i: nat, j: nat, k: nat)
    requires OrderRun(Pending, acts) == Delivered
    ensures i < j < k < |acts|
    ensures acts[i] == Process && OrderRun(Pending, acts[..i]) == Pending
    ensures acts[j] == Ship && OrderRun(Pending, acts[..j]) == Processing
    ensures acts[k] == Deliver && OrderRun(Pending, acts[..k]) == Shipped
  {
    k := EntersAt(Pending, acts, Delivered);
    Entering(OrderRun(Pending, acts[..k]), acts[k], Delivered);
    var toShipped := acts[..k];
    j := EntersAt(Pending, toShipped, Shipped);
    Entering(OrderRun(Pending, toShipped[..j]), toShipped[j], Shipped);
    assert toShipped[..j] == acts[..j];
    var toProcessing := acts[..j];
    i := EntersAt(Pending, toProcessing, Processing);
    Entering(OrderRun(Pending, toProcessing[..i]), toProcessing[i], Processing);
    assert toProcessing[..i] == acts[..i];
  }

  /** `OnlineOrder`: the context object that holds the current state. */
  class OnlineOrder {
    const orderId: string
    var state: OrderState

    constructor (orderId: string)
      ensures this.orderId == orderId && state == Pending
    {
      this.orderId := orderId;
      state := Pending;
    }

    method SetState(s: OrderState)
      modifies this
      ensures state == s
    {
      state := s;
    }

    /** Delegates the action to the current state's handler. */
    method Perform(a: OrderAction) returns (msg: string)
      modifies this
      ensures state == OrderStep(old(state), a).next
      ensures msg == OrderStep(old(state), a).reply.text
    {
      var o := OrderStep(state, a);
      state := o.next;
      msg := o.reply.text;
    }

    method Process() returns (msg: string)
      modifies this
      ensures state == OrderStep(old(state), OrderAction.Process).next && msg == OrderStep(old(state), OrderAction.Process).reply.text
    {
      msg := Perform(OrderAction.Process);
    }

    method Cancel() returns (msg: string)
      modifies this
      ensures state == OrderStep(old(state), OrderAction.Cancel).next && msg == OrderStep(old(state), OrderAction.Cancel).reply.text
    {
      msg := Perform(OrderAction.Cancel);
    }

    method Ship() returns (msg: string)
      modifies this
      ensures state == OrderStep(old(state), OrderAction.Ship).next && msg == OrderStep(old(state), OrderAction.Ship).reply.text
    {
      msg := Perform(OrderAction.Ship);
    }

    method Deliver() returns (msg: string)
      modifies this
      ensures state == OrderStep(old(state), OrderAction.Deliver).next && msg == OrderStep(old(state), OrderAction.Deliver).reply.text
    {
      msg := Perform(OrderAction.Deliver);
    }

    function Status(): string
      reads this
    {
      "Order " + orderId + ": " + OrderLabel(state)
    }
  }

  /** The warnings the demonstration's first order receives: a shipped order cannot be cancelled nor delivered twice. */
  lemma LateActionsWarn()
    ensures OrderStep(Shipped, Cancel) == OrderOutcome(Shipped, Warning("⚠️ Can't cancel — order is already in transit!"))
    ensures OrderStep(Delivered, Deliver) == OrderOutcome(Delivered, Warning("⚠️ Order was already delivered!"))
  {
  }

  /**
   * The demonstration's first order: processed, shipped, refused a late
   * cancel, delivered, and then told it was already delivered.
   */
  method DemoOrder() returns (lateCancel: string, again: string, last: OrderState)
    ensures lateCancel == "⚠️ Can't cancel — order is already in transit!"
    ensures again == "⚠️ Order was already delivered!" && last == Delivered
  {
    LateActionsWarn();
    var order := new OnlineOrder("ORD-001");
    var processed := order.Process();
    var shipped := order.Ship();
    assert order.state == Shipped;
    lateCancel := order.Cancel();
    var delivered := order.Deliver();
    assert order.state == Delivered;
    again := order.Deliver();
    last := order.state;
  }

  /** The demonstration's second order: cancelled at once, it then refuses to be processed. */
  method DemoCancelledOrder() returns (last: OrderState, refused: string)
    ensures last == Cancelled && refused == "⚠️ Can't process — order was cancelled."
  {
    var order := new OnlineOrder("ORD-002");
    var cancel := order.Cancel();
    last := order.state;
    refused := order.Process();
  }

  // ---------------------------------------------------------------------
  // Audio player
  // ---------------------------------------------------------------------

  datatype PlayerState = Stopped | Playing | Paused
  datatype PlayerAction = Play | Pause | Stop
  datatype PlayerOutcome = PlayerOutcome(next: PlayerState, reply: Reply)

  /** The three player state classes' `play`, `pause` and `stop` handlers. */
  function PlayerStep(s: PlayerState, a: PlayerAction): (o: PlayerOutcome)
    ensures o.reply.Done? <==> o.next != s
  {
    match (s, a)
    case (Stopped, Play) => PlayerOutcome(Playing, Done("▶️  Playing music!"))
    case (Stopped, Pause) => PlayerOutcome(s, Warning("⚠️ Can't pause — nothing is playing!"))
    case (Stopped, Stop) => PlayerOutcome(s, Warning("⚠️ Already stopped."))
    case (Playing, Play) => PlayerOutcome(s, Warning("⚠️ Already playing!"))
    case (Playing, Pause) => PlayerOutcome(Paused, Done("⏸️  Paused."))
    case (Playing, Stop) => PlayerOutcome(Stopped, Done("⏹️  Stopped."))
    case (Paused, Play) => PlayerOutcome(Playing, Done("▶️  Resumed playing!"))
    case (Paused, Pause) => PlayerOutcome(s, Warning("⚠️ Already paused!"))
    case (Paused, Stop) => PlayerOutcome(Stopped, Done("⏹️  Stopped."))
  }

  function PlayerLabel(s: PlayerState): string
  {
    match s
    case Stopped => "⏹️  Stopped"
    case Playing => "▶️  Playing"
    case Paused => "⏸️  Paused"
  }

  /** Play always ends in Playing, Stop always ends in Stopped, and Pause pauses only what is playing. */
  lemma PlayerActionsTargets(s: PlayerState)
    ensures PlayerStep(s, Play).next == Playing
    ensures PlayerStep(s, Stop).next == Stopped
    ensures PlayerStep(s, Pause).next == (if s == Playing then Paused else s)
  {
  }

  class AudioPlayer {
    const song: string
    var state: PlayerState

    constructor (song: string)
      ensures this.song == song && state == Stopped
    {
      this.song := song;
      state := Stopped;
    }

    method SetState(s: PlayerState)
      modifies this
      ensures state == s
    {
      state := s;
    }

    method Perform(a: PlayerAction) returns (msg: string)
      modifies this
      ensures state == PlayerStep(old(state), a).next
      ensures msg == PlayerStep(old(state), a).reply.text
    {
      var o := PlayerStep(state, a);
      state := o.next;
      msg := o.reply.text;
    }

    method Play() returns (msg: string)
      modifies this
      ensures state == PlayerStep(old(state), PlayerAction.Play).next && msg == PlayerStep(old(state), PlayerAction.Play).reply.text
    {
      msg := Perform(PlayerAction.Play);
    }

    method Pause() returns (msg: string)
      modifies this
      ensures state == PlayerStep(old(state), PlayerAction.Pause).next && msg == PlayerStep(old(state), PlayerAction.Pause).reply.text
    {
      msg := Perform(PlayerAction.Pause);
    }

    method Stop() returns (msg: string)
      modifies this
      ensures state == PlayerStep(old(state), PlayerAction.Stop).next && msg == PlayerStep(old(state), PlayerAction.Stop).reply.text
    {
      msg := Perform(PlayerAction.Stop);
    }

    function Status(): string
      reads this
    {
      "🎵 " + song + ": " + PlayerLabel(state)
    }
  }
}
