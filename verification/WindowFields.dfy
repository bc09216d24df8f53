/**
  What each field of the window shows after any updates and any actions of the user: what the last of
  them that says anything of the field says.
 */
module WindowFields {
  import opened Wrappers
  import opened Protocol
  import opened StreamWorker
  import opened W = Workspace

  /** Snapshots and events reach the reducer by way of the stream only. */
  predicate Dispatched(h: Happening) {
    h.Local? ==> !h.action.ApplySnapshot? && !h.action.ApplyEvent?
  }

  ghost predicate AllDispatched(happenings: seq<Happening>) {
    forall i | 0 <= i < |happenings| :: Dispatched(happenings[i])
  }

  /** What the last happening that says anything says. */
  function Said<T>(happenings: seq<Happening>, says: Happening -> Option<T>): Option<T> {
    if happenings == [] then None
    else if says(happenings[|happenings| - 1]).Some? then says(happenings[|happenings| - 1])
    else Said(happenings[..|happenings| - 1], says)
  }

  function Or<T>(said: Option<T>, otherwise: T): T {
    if said.Some? then said.value else otherwise
  }

  function SaysConnection(h: Happening): Option<Connection> {
    match h
    case FromStream(Message(_)) => Some(Ready)
    case FromStream(Reconnecting) => Some(Lost)
    case FromStream(Unavailable(reason)) => Some(Down(reason))
    case Local(SetConnection(c)) => Some(c)
    case Local(_) => None
  }

  /** An error is shown from the failure that tells it until an open begins here, a project or a
      snapshot arrives, or it is cleared. */
  function SaysError(h: Happening): Option<Option<string>> {
    match h
    case FromStream(Message(Snapshot(_))) => Some(None)
    case FromStream(Message(Event(e))) =>
      if e.payload.OperationFailed? then Some(Some(e.payload.message))
      else if e.payload.ProjectOpened? then Some(None)
      else None
    case FromStream(_) => None
    case Local(OpeningFailed(message)) => Some(Some(message))
    case Local(StartOpening(_, _)) => Some(None)
    case Local(ProjectOpenedLocally(_)) => Some(None)
    case Local(ClearError) => Some(None)
    case Local(_) => None
  }

  function SaysGoal(h: Happening): Option<string> {
    if h.Local? && h.action.SetTaskGoal? then Some(h.action.goal) else None
  }

  /** The request the opening card names, if there is a card. */
  function SaysCard(h: Happening): Option<Option<RequestId>> {
    match h
    case FromStream(Message(Snapshot(s))) =>
      Some(if |s.activeOperations| == 0 then None else Some(s.activeOperations[0]))
    case FromStream(Message(Event(e))) =>
      Some(if e.payload.OperationStarted? then Some(e.payload.requestId) else None)
    case FromStream(_) => None
    case Local(StartOpening(id, _)) => Some(Some(id))
    case Local(ProjectOpenedLocally(_)) => Some(None)
    case Local(OpeningFailed(_)) => Some(None)
    case Local(_) => None
  }

  /** The path on the card: that of the open begun here, until a card is closed. */
  function SaysPath(h: Happening): Option<string> {
    match h
    case Local(StartOpening(_, path)) => Some(path)
    case _ => if SaysCard(h) == Some(None) then Some("") else None
  }

  function CardOpen(happenings: seq<Happening>): bool {
    Or(Said(happenings, SaysCard), None).Some?
  }

  /** Whether the card is cancelling: as set on an open card, until it is closed or an open begins. */
  function Cancelling(happenings: seq<Happening>): bool {
    if happenings == [] then false
    else
      var init, last := happenings[..|happenings| - 1], happenings[|happenings| - 1];
      match last
      case Local(SetOpeningStatus(cancelling)) => CardOpen(init) && cancelling
      case FromStream(Message(Snapshot(s))) => |s.activeOperations| > 0 && Cancelling(init)
      case _ => SaysCard(last).None? && Cancelling(init)
  }

  /** The window's fields are those the happenings say. */
  ghost predicate Shown(w: Workspace, happenings: seq<Happening>) {
    && w.connection == Or(Said(happenings, SaysConnection), Checking)
    && w.openingError == Or(Said(happenings, SaysError), None)
    && w.taskGoal == Or(Said(happenings, SaysGoal), "")
    && w.opening == CardOf(happenings)
  }

  function CardOf(happenings: seq<Happening>): Option<Opening> {
    match Or(Said(happenings, SaysCard), None)
    case None => None
    case Some(id) => Some(Opening(id, Or(Said(happenings, SaysPath), ""), Cancelling(happenings)))
  }

  /** Without a card there is no path to keep, and nothing being cancelled. */
  lemma {:induction false} NoCardNoPath(happenings: seq<Happening>)
    requires !CardOpen(happenings)
    ensures Or(Said(happenings, SaysPath), "") == "" && !Cancelling(happenings)
  {
    if happenings != [] && SaysCard(happenings[|happenings| - 1]).None? {
      NoCardNoPath(happenings[..|happenings| - 1]);
    }
  }

  lemma SaidNext<T>(happenings: seq<Happening>, h: Happening, says: Happening -> Option<T>)
    ensures Said(happenings + [h], says) == if says(h).Some? then says(h) else Said(happenings, says)
  {
    assert (happenings + [h])[..|happenings|] == happenings;
  }

  lemma ConnectionField(w: Workspace, h: Happening)
    requires Dispatched(h)
    ensures See(w, h).connection == Or(SaysConnection(h), w.connection)
  {
  }

  lemma ErrorField(w: Workspace, h: Happening)
    requires Dispatched(h)
    ensures See(w, h).openingError == Or(SaysError(h), w.openingError)
  {
  }

  lemma GoalField(w: Workspace, h: Happening)
    requires Dispatched(h)
    ensures See(w, h).taskGoal == Or(SaysGoal(h), w.taskGoal)
  {
  }

  lemma CardField(w: Workspace, happenings: seq<Happening>, h: Happening)
    requires w.opening == CardOf(happenings) && Dispatched(h)
    ensures See(w, h).opening == CardOf(happenings + [h])
  {
    SaidNext(happenings, h, SaysCard);
    SaidNext(happenings, h, SaysPath);
    assert (happenings + [h])[..|happenings|] == happenings;
    if !CardOpen(happenings) {
      NoCardNoPath(happenings);
    }
  }

  /**
    Over any updates of streams and any actions of the user: the connection, the error, the goal and
    the whole opening card, each told by the last happening that concerns it.
   */
  lemma {:induction false} FieldsAreSaid(happenings: seq<Happening>)
    requires AllDispatched(happenings)
    ensures Shown(W.Live(happenings), happenings)
  {
    if happenings != [] {
      var init, last := happenings[..|happenings| - 1], happenings[|happenings| - 1];
      FieldsAreSaid(init);
      assert happenings == init + [last];
      ConnectionField(W.Live(init), last);
      SaidNext(init, last, SaysConnection);
      ErrorField(W.Live(init), last);
      SaidNext(init, last, SaysError);
      GoalField(W.Live(init), last);
      SaidNext(init, last, SaysGoal);
      CardField(W.Live(init), init, last);
    }
  }
}
