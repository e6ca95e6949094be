/**
  Two concrete runs of the turn protocol over the market. In the first a slow handler performs its effect after
  its claim was taken over, and the recovery answers with that effect. In the second the turn record lapses
  between two handlings of one turn, and the second reports its own total for the order of the first.
 */
module RecoveryRuns {
  import opened Wrappers
  import opened TurnTypes
  import opened TurnStoreSpec
  import opened TurnGateway
  import opened TurnProtocol
  import opened OrderTexts
  import opened Recovery
  import P = TurnTheorems
  import M = Market
  import T = Transcript

  // ---- composing runs ----

  /** These events can happen in this order from w, and end in w'. */
  ghost predicate Leads(shop: Shop, w: World, events: seq<Event>, w': World) {
    |w.sys.lives| > 0 && Possible(shop, w, events) && RunWorld(shop, w, events) == w'
  }

  lemma {:induction false} LeadOn(shop: Shop, w: World, first: seq<Event>, w1: World, rest: seq<Event>, w2: World)
    requires Leads(shop, w, first, w1) && Leads(shop, w1, rest, w2)
    ensures Leads(shop, w, first + rest, w2)
    decreases |first|
  {
    if first == [] {
      assert first + rest == rest;
    } else {
      assert (first + rest)[1..] == first[1..] + rest;
      LeadOn(shop, Happen(shop, w, first[0]), first[1..], w1, rest, w2);
    }
  }

  lemma LeadOne(shop: Shop, w: World, e: Event)
    requires |w.sys.lives| > 0 && CanHappen(shop, w, e)
    ensures Leads(shop, w, [e], Happen(shop, w, e))
  {
    assert [e][1..] == [];
  }

  function AsEvents(steps: seq<Step>): seq<Event> {
    if steps == [] then [] else [Protocol(steps[0])] + AsEvents(steps[1..])
  }

  /** Steps of the protocol are events of the world, when the one answer among them opens the list and needs no effect. */
  lemma {:induction false} LiftRun(shop: Shop, w: World, steps: seq<Step>)
    requires |w.sys.lives| > 0 && Legal(shop.cfg, w.sys, steps)
    requires steps != [] && steps[0].Finish? ==> IsWorking(w, steps[0].id, Normal) && ActionAt(w, steps[0].id).Other?
    requires forall i | 0 < i < |steps| :: !steps[i].Finish?
    ensures Leads(shop, w, AsEvents(steps), w.(sys := Run(shop.cfg, w.sys, steps)))
    decreases |steps|
  {
    if steps != [] {
      hide Apply, Enabled;
      assert AsEvents(steps)[1..] == AsEvents(steps[1..]);
      LiftRun(shop, w.(sys := Apply(shop.cfg, w.sys, steps[0])), steps[1..]);
    }
  }

  /** An admissible request that nothing disturbs begins, in the world as in the protocol. */
  lemma Begins(shop: Shop, w: World, id: Token, turn: Turn, recovering: bool, deadlineAt: nat)
    requires P.Admissible(shop.cfg, w.sys, id, turn, recovering) && deadlineAt > 0 && deadlineAt > w.sys.now
    ensures Leads(shop, w, Starting(id, turn, recovering, deadlineAt),
                  w.(sys := P.Opened(shop.cfg, w.sys, id, turn, recovering, 1, 1000, deadlineAt)))
  {
    P.OpeningIsOpened(shop.cfg, w.sys, id, turn, recovering, 1, 1000, deadlineAt);
    assert |w.sys.lives| > 0;
    hide Legal, Run, P.Admissible, P.Opened;
    LiftRun(shop, w, P.Opening(id, turn, recovering, 1, 1000, deadlineAt));
  }

  function Starting(id: Token, turn: Turn, recovering: bool, deadlineAt: nat): seq<Event> {
    AsEvents(P.Opening(id, turn, recovering, 1, 1000, deadlineAt))
  }

  /** A handler without an effect answers a screen and commits. */
  lemma Ends(shop: Shop, w: World, id: Token, screen: Response, after: Session)
    requires |w.sys.lives| > 0 && IsWorking(w, id, Normal) && ActionAt(w, id).Other? && w.sys.requests[id].stage.life == Now(w.sys)
    requires CanCommit(w.sys.slot, w.sys.now, w.sys.requests[id].stage.base.revision, id) && Formatted(screen)
    ensures Leads(shop, w, Ending(id, screen, after), w.(sys := P.Closed(w.sys, id, screen, after, 1, 1000)))
  {
    P.ClosingIsClosed(shop.cfg, w.sys, id, screen, after, 1, 1000);
    hide Legal, Run, P.Closed, CanCommit, Formatted;
    LiftRun(shop, w, P.Closing(id, screen, after, 1, 1000));
  }

  function Ending(id: Token, screen: Response, after: Session): seq<Event> { AsEvents(P.Closing(id, screen, after, 1, 1000)) }

  // ---- a session on its way to its checkout ----

  const SCREEN: Response := "CON Confirm"

  function FirstDial(shop: Shop, b: Binding): Turn { Turn(shop.cfg.key, b, "") }

  function Confirmation(shop: Shop, b: Binding): Turn { Turn(shop.cfg.key, b, "1") }

  ghost predicate InScope(shop: Shop, b: Binding) { BindSession(shop.cfg, FirstDial(shop, b), None).None? && shop.cfg.maxTurns >= 2 }

  /** The confirmation screen over a cart of one product. */
  function Confirming(shop: Shop, b: Binding, quantity: nat): Session {
    Session(Some("CONFIRM"), map["cart" := JCounts(map["A" := quantity]), "phone" := JText(shop.normalise(b.phoneNumber)),
                                 "pickup" := JText("Depot")], [])
  }

  /** The ledger once the first dial has been answered, and the slot that holds it. */
  function Met(shop: Shop, b: Binding): Ledger {
    Ledger(1, b, Some(""), [Receipt(FirstDial(shop, b).Identity(), 0, SCREEN)], false, None)
  }

  function MetSlot(shop: Shop, b: Binding, session: Session, now: nat): Slot {
    Slot(Some(Met(shop, b)), Some(session), now + 1000, false, Some(now + 1000))
  }

  function Held(shop: Shop, b: Binding, session: Session, now: nat, pending: Pending): Slot {
    Slot(Some(Met(shop, b).(pending := Some(pending.(deadlineAt := Some(now + 1000))))), Some(session), now + 1000, false, Some(now + 1000))
  }

  lemma Texts()
    ensures T.Position("") == 0 && T.Segments("") == [] && T.Position("1") == 1 && T.Segments("1") == ["1"] && T.LatestInput("1") == "1"
    ensures T.CompareTranscript(0, "", None) == T.Initial && T.CompareTranscript(1, "1", Some("")) == T.Next
    ensures Formatted(SCREEN) && !IsEnd(SCREEN)
  {
    assert "1"[1..] == "";
    assert T.Split("") == [""];
    assert T.Split("1") == ["1"];
    assert SCREEN[0] == 'C' && SCREEN[..4] == "CON ";
  }

  lemma FirstDialOpens(shop: Shop, s: System, id: Token, b: Binding)
    requires |s.lives| > 0 && s.slot == ABSENT && s.event.None? && s.now >= 0 && id !in s.requests && InScope(shop, b)
    ensures P.Admissible(shop.cfg, s, id, FirstDial(shop, b), false)
    ensures var o := P.Opened(shop.cfg, s, id, FirstDial(shop, b), false, 1, 1000, s.now + 1000);
      && o == s.(slot := o.slot, requests := o.requests, lives := o.lives, wins := o.wins, starts := o.starts)
      && |o.lives| == |s.lives|
      && o.requests == s.requests[id := Request(FirstDial(shop, b), false,
           Working(Now(s), FreshLedger(b), Owning(FirstDial(shop, b), false, 0, id), None, s.now + 1000))]
      && o.lives[Now(s)].entries == s.lives[Now(s)].entries
      && CanCommit(o.slot, o.now, 0, id) && !o.slot.closed
  {
    Texts();
  }

  lemma FirstDialCloses(shop: Shop, o: System, id: Token, b: Binding, session: Session)
    requires |o.lives| > 0 && id in o.requests && !o.slot.closed && o.now >= 0
    requires o.requests[id] == Request(FirstDial(shop, b), false,
               Working(Now(o), FreshLedger(b), Owning(FirstDial(shop, b), false, 0, id), None, o.now + 1000))
    ensures var c := P.Closed(o, id, SCREEN, session, 1, 1000);
      && c == o.(slot := MetSlot(shop, b, session, o.now), requests := c.requests, lives := c.lives, answers := c.answers)
      && c.requests == o.requests[id := Request(FirstDial(shop, b), false, Answered)] && |c.lives| == |o.lives|
      && |c.lives[Now(c)].entries| == |o.lives[Now(o)].entries| + 1
  {
    Texts();
    assert Committed(FreshLedger(b), FirstDial(shop, b), SCREEN) == Met(shop, b);
  }

  lemma ConfirmationOpens(shop: Shop, s: System, id: Token, b: Binding, session: Session)
    requires |s.lives| > 0 && s.now >= 0 && s.slot == MetSlot(shop, b, session, s.now) && s.event.None? && id !in s.requests && InScope(shop, b)
    ensures P.Admissible(shop.cfg, s, id, Confirmation(shop, b), false)
    ensures var o := P.Opened(shop.cfg, s, id, Confirmation(shop, b), false, 1, 1000, s.now + 1000);
      var pending := Owning(Confirmation(shop, b), false, 1, id);
      && o == s.(slot := Held(shop, b, session, s.now, pending), requests := o.requests, lives := o.lives, wins := o.wins, starts := o.starts)
      && |o.lives| == |s.lives| && o.lives[Now(s)].entries == s.lives[Now(s)].entries
      && (forall k | 0 <= k < Now(s) :: o.lives[k] == s.lives[k])
      && o.requests == s.requests[id := Request(Confirmation(shop, b), false, Working(Now(s), Met(shop, b), pending, Some(session), s.now + 1000))]
  {
    Texts();
  }

  /** The confirmation's handler has started and still holds its claim. */
  ghost predicate AtCheckout(shop: Shop, s: System, id: Token, b: Binding, session: Session) {
    var pending := Owning(Confirmation(shop, b), false, 1, id);
    && |s.lives| > 0 && s.now >= 0 && s.event.None? && id in s.requests
    && s.requests[id] == Request(Confirmation(shop, b), false, Working(Now(s), Met(shop, b), pending, Some(session), s.now + 1000))
    && s.slot == Held(shop, b, session, s.now, pending)
    && |s.lives[Now(s)].entries| == 1
  }

  function Dialled(shop: Shop, a: Token, b: Binding, session: Session, now: nat): seq<Event> {
    Starting(a, FirstDial(shop, b), false, now + 1000) + Ending(a, SCREEN, session)
  }

  /** From no record at all, a first dial is answered and the confirmation's handler starts. */
  function ToCheckout(shop: Shop, a: Token, id: Token, b: Binding, session: Session, now: nat): seq<Event> {
    Dialled(shop, a, b, session, now) + Starting(id, Confirmation(shop, b), false, now + 1000)
  }

  /** No record stands, and no end event. */
  ghost predicate Blank(s: System, now: nat) { |s.lives| > 0 && s.slot == ABSENT && s.event.None? && s.now == now && s.lives[Now(s)].entries == [] }

  lemma DialsFirst(shop: Shop, w: World, a: Token, b: Binding, session: Session, now: nat) returns (w': World)
    requires Blank(w.sys, now) && a !in w.sys.requests && InScope(shop, b)
    ensures Leads(shop, w, Dialled(shop, a, b, session, now), w')
    ensures w' == w.(sys := w'.sys) && |w'.sys.lives| == |w.sys.lives| && w'.sys.event.None? && w'.sys.now == now
    ensures w'.sys.slot == MetSlot(shop, b, session, now) && |w'.sys.lives[Now(w'.sys)].entries| == 1
    ensures w'.sys.requests == w.sys.requests[a := Request(FirstDial(shop, b), false, Answered)]
  {
    hide P.Closed, P.Opened, P.Admissible, MetSlot, CanCommit, InScope, Leads, Starting, Ending;
    FirstDialOpens(shop, w.sys, a, b);
    var o := P.Opened(shop.cfg, w.sys, a, FirstDial(shop, b), false, 1, 1000, now + 1000);
    FirstDialCloses(shop, o, a, b, session);
    w' := w.(sys := P.Closed(o, a, SCREEN, session, 1, 1000));
    assert Formatted(SCREEN) by { Texts(); }
    hide Formatted;
    Begins(shop, w, a, FirstDial(shop, b), false, now + 1000);
    Ends(shop, w.(sys := o), a, SCREEN, session);
    LeadOn(shop, w, Starting(a, FirstDial(shop, b), false, now + 1000), w.(sys := o), Ending(a, SCREEN, session), w');
  }

  lemma ReachesCheckout(shop: Shop, w: World, a: Token, id: Token, b: Binding, session: Session, now: nat) returns (w': World)
    requires Blank(w.sys, now) && a !in w.sys.requests && id !in w.sys.requests && a != id && InScope(shop, b)
    ensures Leads(shop, w, ToCheckout(shop, a, id, b, session, now), w')
    ensures w' == w.(sys := w'.sys) && |w'.sys.lives| == |w.sys.lives| && w'.sys.now == now && AtCheckout(shop, w'.sys, id, b, session)
    ensures w'.sys.requests == w.sys.requests[a := Request(FirstDial(shop, b), false, Answered)][id := w'.sys.requests[id]]
  {
    hide Leads, Starting, Dialled, P.Opened, P.Admissible, MetSlot, InScope, Held;
    var w1 := DialsFirst(shop, w, a, b, session, now);
    ConfirmationOpens(shop, w1.sys, id, b, session);
    w' := w1.(sys := P.Opened(shop.cfg, w1.sys, id, Confirmation(shop, b), false, 1, 1000, now + 1000));
    hide Blank;
    Begins(shop, w1, id, Confirmation(shop, b), false, now + 1000);
    LeadOn(shop, w, Dialled(shop, a, b, session, now), w1, Starting(id, Confirmation(shop, b), false, now + 1000), w');
  }

  // ---- the market they share ----

  const SHELF: M.Market := M.Seed(map["A" := 5])

  function Units(n: nat): seq<M.Item> { [M.Item("A", n)] }

  /** The shelf once an order for the confirmation has been placed. */
  function Sold(shop: Shop, b: Binding, quantity: nat, total: int): M.Market {
    var order := OrderOf(Confirming(shop, b, quantity), shop.normalise(b.phoneNumber), Units(quantity), total);
    M.Place(SHELF, shop.cfg.key, order, Some(Confirmation(shop, b).Identity())).0
  }

  lemma SoldIs(shop: Shop, b: Binding, quantity: nat, total: int)
    requires quantity <= 5
    ensures var m := Sold(shop, b, quantity, total);
      var order := OrderOf(Confirming(shop, b, quantity), shop.normalise(b.phoneNumber), Units(quantity), total);
      && M.Place(SHELF, shop.cfg.key, order, Some(Confirmation(shop, b).Identity())) == (m, Some(M.Created(1)))
      && m.sequence == 1 && m.orders == map[1 := order]
      && m.journal == map[Confirmation(shop, b).Identity() := M.PlaceEntry(M.Created(1))]
  {
    assert Units(quantity)[1..] == [] && Units(quantity)[..0] == [];
    assert M.FirstShort(SHELF, Units(quantity)).None?;
  }

  lemma CartIs(shop: Shop, b: Binding, quantity: nat)
    requires quantity >= 1
    ensures ItemsOf(Cart(Confirming(shop, b, quantity)), Units(quantity))
    ensures TextAt(Confirming(shop, b, quantity), "pickup") == "Depot"
    ensures TextAt(Confirming(shop, b, quantity), "phone") == shop.normalise(b.phoneNumber)
    ensures ActionOf(Some(Confirming(shop, b, quantity)), Confirmation(shop, b).Identity()).Checkout?
  {
    Texts();
    assert Units(quantity)[0] in Units(quantity);
  }

  lemma PlacedIsFormatted(id: nat, total: int, pickup: string)
    ensures Formatted(PlacedText(id, total, pickup)) && IsEnd(PlacedText(id, total, pickup))
  {
    var text := PlacedText(id, total, pickup);
    assert HEAD[..4] == "END ";
    assert text[..4] == HEAD[..4];
  }

  /** The handler at its checkout places the order, late or not. */
  lemma Places(shop: Shop, w: World, id: Token, b: Binding, quantity: nat, total: int)
    requires |w.sys.lives| > 0 && IsWorking(w, id, Normal) && id !in w.effects && w.market == SHELF && 1 <= quantity <= 5
    requires w.sys.requests[id].turn == Confirmation(shop, b) && w.sys.requests[id].stage.session == Some(Confirming(shop, b, quantity))
    ensures Leads(shop, w, [Perform(id, Units(quantity), total)],
                  w.(market := Sold(shop, b, quantity, total), effects := w.effects[id := PlaceEffect(Some(M.Created(1)), total, true)],
                     created := w.created + [Creation(Confirmation(shop, b).Identity(), 1)]))
  {
    CartIs(shop, b, quantity);
    SoldIs(shop, b, quantity, total);
    hide ItemsOf, M.Place, Sold, OrderOf, Confirming, Confirmation;
    LeadOne(shop, w, Perform(id, Units(quantity), total));
  }

  // ---- a late effect ----

  /**
    The confirmation's handler stalls after its claim; a recovery takes the turn over; only then does the
    handler place the order. The recovery finds it in the journal and answers.
   */
  function LateRun(shop: Shop, b: Binding): seq<Event> {
    ToCheckout(shop, 0, 1, b, Confirming(shop, b, 1), 0)
    + (Starting(2, Confirmation(shop, b), true, 1000)
       + ([Perform(1, Units(1), 100)] + ([Recovered(2, Confirming(shop, b, 1))] + [Protocol(Install(2, 1, 1000))])))
  }

  lemma TakesOver(shop: Shop, s: System, id: Token, recoverer: Token, b: Binding, session: Session)
    requires AtCheckout(shop, s, id, b, session) && recoverer !in s.requests && InScope(shop, b) && shop.cfg.canRecover
    ensures P.Admissible(shop.cfg, s, recoverer, Confirmation(shop, b), true)
    ensures var o := P.Opened(shop.cfg, s, recoverer, Confirmation(shop, b), true, 1, 1000, s.now + 1000);
      var pending := Owning(Confirmation(shop, b), true, 1, recoverer);
      && o == s.(slot := Held(shop, b, session, s.now, pending), requests := o.requests, lives := o.lives)
      && |o.lives| == |s.lives| && |o.lives[Now(s)].entries| == 1
      && o.requests == s.requests[recoverer := Request(Confirmation(shop, b), true,
                                                       Working(Now(s), Met(shop, b), pending, Some(session), s.now + 1000))]
  {
    Texts();
  }

  /** The recovery reads the order from the journal. */
  lemma Recovers(shop: Shop, w: World, id: Token, b: Binding, quantity: nat, total: int)
    requires |w.sys.lives| > 0 && IsWorking(w, id, Recovery) && w.market == Sold(shop, b, quantity, total) && 1 <= quantity <= 5
    requires w.sys.requests[id].turn == Confirmation(shop, b) && w.sys.requests[id].stage.session == Some(Confirming(shop, b, quantity))
    ensures var after := Confirming(shop, b, quantity);
      Leads(shop, w, [Recovered(id, after)], w.(sys := Apply(shop.cfg, w.sys, Finish(id, PlacedText(1, total, "Depot"), after))))
  {
    CartIs(shop, b, quantity);
    SoldIs(shop, b, quantity, total);
    PlacedIsFormatted(1, total, "Depot");
    assert RecoveredAnswer(w.market, Some(Confirming(shop, b, quantity)), Confirmation(shop, b).Identity()) == Some(PlacedText(1, total, "Depot"));
    hide Sold, M.Place, PlacedText, Formatted, RecoveredAnswer;
    LeadOne(shop, w, Recovered(id, Confirming(shop, b, quantity)));
  }

  /** A prepared answer to the confirmation is installed by the one who still holds the claim. */
  lemma Commits(shop: Shop, w: World, id: Token, b: Binding, session: Session, recovering: bool, now: nat, response: Response, after: Session)
    requires |w.sys.lives| > 0 && id in w.sys.requests && w.sys.now == now
    requires w.sys.slot == Held(shop, b, session, now, Owning(Confirmation(shop, b), recovering, 1, id))
    requires w.sys.requests[id] == Request(Confirmation(shop, b), recovering,
               Prepared(Now(w.sys), Met(shop, b), Owning(Confirmation(shop, b), recovering, 1, id), Some(session), now + 1000, response, after))
    ensures var s' := Apply(shop.cfg, w.sys, Install(id, 1, 1000));
      && Leads(shop, w, [Protocol(Install(id, 1, 1000))], w.(sys := s'))
      && |s'.lives| == |w.sys.lives| && (forall j <- w.sys.requests :: j != id ==> j in s'.requests && s'.requests[j] == w.sys.requests[j])
      && s'.lives[Now(w.sys)].entries == w.sys.lives[Now(w.sys)].entries
           + [Entry(Receipt(Confirmation(shop, b).Identity(), 1, response), id, if recovering then Recovery else Normal, Some(session))]
  {
    assert Confirmation(shop, b).Position() == 1 by { Texts(); }
    assert CanCommit(w.sys.slot, now, 1, id);
    hide T.Position, T.Segments, T.Split, CanCommit, Confirmation, Met, Committed, Commit;
    LeadOne(shop, w, Protocol(Install(id, 1, 1000)));
  }

  lemma StartIsBlank()
    ensures Blank(Start(SHELF).sys, 0) && Start(SHELF).sys.requests == map[]
  {
  }

  /** Both runs start where the theorems of Recovery do. */
  lemma ShelfOpens(shop: Shop)
    ensures Recovery.Opening(shop, map["A" := 5], SHELF)
  {
    M.SeededConserves(map["A" := 5], []);
  }

  /** After a take-over the first owner may still act: its effect is the one order, and the recovery's answer reports it. */
  lemma LateEffectIsRecovered(shop: Shop, b: Binding) returns (w: World)
    requires InScope(shop, b) && shop.cfg.canRecover
    ensures Leads(shop, Start(SHELF), LateRun(shop, b), w)
    ensures w.created == [Creation(Confirmation(shop, b).Identity(), 1)]
    ensures |w.sys.lives| == 1 && |w.sys.lives[0].entries| == 2
    ensures w.sys.lives[0].entries[1]
         == Entry(Receipt(Confirmation(shop, b).Identity(), 1, PlacedText(1, 100, "Depot")), 2, Recovery, Some(Confirming(shop, b, 1)))
    ensures IsWorking(w, 1, Normal)
  {
    hide Leads, P.Opened, P.Admissible, InScope, Sold, Held, Starting, ToCheckout, PlacedText, M.Place, Confirmation, Confirming, FirstDial, Met, Blank;
    StartIsBlank();
    PlacedIsFormatted(1, 100, "Depot");
    hide Formatted;
    var session := Confirming(shop, b, 1);
    var w1 := ReachesCheckout(shop, Start(SHELF), 0, 1, b, session, 0);
    TakesOver(shop, w1.sys, 1, 2, b, session);
    var w2 := w1.(sys := P.Opened(shop.cfg, w1.sys, 2, Confirmation(shop, b), true, 1, 1000, 1000));
    Begins(shop, w1, 2, Confirmation(shop, b), true, 1000);
    Places(shop, w2, 1, b, 1, 100);
    var w3 := w2.(market := Sold(shop, b, 1, 100), effects := w2.effects[1 := PlaceEffect(Some(M.Created(1)), 100, true)],
                  created := w2.created + [Creation(Confirmation(shop, b).Identity(), 1)]);
    Recovers(shop, w3, 2, b, 1, 100);
    var w4 := w3.(sys := Apply(shop.cfg, w3.sys, Finish(2, PlacedText(1, 100, "Depot"), session)));
    Commits(shop, w4, 2, b, session, true, 0, PlacedText(1, 100, "Depot"), session);
    w := w4.(sys := Apply(shop.cfg, w4.sys, Install(2, 1, 1000)));
    LeadOn(shop, w3, [Recovered(2, session)], w4, [Protocol(Install(2, 1, 1000))], w);
    LeadOn(shop, w2, [Perform(1, Units(1), 100)], w3, [Recovered(2, session)] + [Protocol(Install(2, 1, 1000))], w);
    LeadOn(shop, w1, Starting(2, Confirmation(shop, b), true, 1000), w2,
           [Perform(1, Units(1), 100)] + ([Recovered(2, session)] + [Protocol(Install(2, 1, 1000))]), w);
    LeadOn(shop, Start(SHELF), ToCheckout(shop, 0, 1, b, session, 0), w1,
           Starting(2, Confirmation(shop, b), true, 1000)
           + ([Perform(1, Units(1), 100)] + ([Recovered(2, session)] + [Protocol(Install(2, 1, 1000))])), w);
  }

  // ---- two totals for one order ----

  // The confirmation's handler places an order for one unit and crashes; the record lapses; the session starts
  // again with two units in its cart, and the same confirmation finds its key used.

  /** A thousand milliseconds later nothing of the record is left. */
  lemma Forgets(shop: Shop, w: World, id: Token, b: Binding, session: Session)
    requires AtCheckout(shop, w.sys, id, b, session) && w.sys.now == 0
    requires forall j <- w.sys.requests :: !w.sys.requests[j].stage.Seen? && !w.sys.requests[j].stage.Admitted?
    ensures var s' := Apply(shop.cfg, w.sys, Tick(1000));
      && Leads(shop, w, [Protocol(Tick(1000))], w.(sys := s'))
      && Blank(s', 1000) && |s'.lives| == |w.sys.lives| + 1 && s'.requests == w.sys.requests
  {
    LeadOne(shop, w, Protocol(Tick(1000)));
  }

  /** Under a used key the store answers with the order it already created, and the handler remembers its own total. */
  lemma PlacesAgain(shop: Shop, w: World, id: Token, b: Binding, quantity: nat, total: int)
    requires |w.sys.lives| > 0 && IsWorking(w, id, Normal) && id !in w.effects && w.market == Sold(shop, b, 1, 100) && quantity >= 1
    requires w.sys.requests[id].turn == Confirmation(shop, b) && w.sys.requests[id].stage.session == Some(Confirming(shop, b, quantity))
    ensures Leads(shop, w, [Perform(id, Units(quantity), total)],
                  w.(effects := w.effects[id := PlaceEffect(Some(M.Created(1)), total, false)]))
  {
    CartIs(shop, b, quantity);
    SoldIs(shop, b, 1, 100);
    hide ItemsOf, Sold, OrderOf, Confirming, Confirmation;
    LeadOne(shop, w, Perform(id, Units(quantity), total));
    var w' := Happen(shop, w, Perform(id, Units(quantity), total));
    assert w'.created == w.created;
  }

  /** Its answer states that total. */
  lemma AnswersOwnTotal(shop: Shop, w: World, id: Token, b: Binding, quantity: nat, total: int)
    requires |w.sys.lives| > 0 && IsWorking(w, id, Normal) && id in w.effects && w.effects[id] == PlaceEffect(Some(M.Created(1)), total, false)
    requires w.sys.requests[id].turn == Confirmation(shop, b) && w.sys.requests[id].stage.session == Some(Confirming(shop, b, quantity)) && quantity >= 1
    ensures var after := Confirming(shop, b, quantity);
      Leads(shop, w, [Handled(id, "", after)], w.(sys := Apply(shop.cfg, w.sys, Finish(id, PlacedText(1, total, "Depot"), after))))
  {
    CartIs(shop, b, quantity);
    PlacedIsFormatted(1, total, "Depot");
    hide PlacedText, Formatted, Confirming, Confirmation;
    LeadOne(shop, w, Handled(id, "", Confirming(shop, b, quantity)));
  }

  /** What the second handling finds: no record, and the order of the first. */
  ghost predicate Afterwards(shop: Shop, b: Binding, w: World) {
    && Blank(w.sys, 1000) && |w.sys.lives| == 2 && w.sys.requests.Keys == {0, 1} && w.effects.Keys == {1}
    && w.market == Sold(shop, b, 1, 100) && w.created == [Creation(Confirmation(shop, b).Identity(), 1)]
  }

  function FirstHandling(shop: Shop, b: Binding): seq<Event> {
    ToCheckout(shop, 0, 1, b, Confirming(shop, b, 1), 0) + ([Perform(1, Units(1), 100)] + [Protocol(Tick(1000))])
  }

  function SecondHandling(shop: Shop, b: Binding): seq<Event> {
    ToCheckout(shop, 2, 3, b, Confirming(shop, b, 2), 1000)
    + ([Perform(3, Units(2), 200)] + ([Handled(3, "", Confirming(shop, b, 2))] + [Protocol(Install(3, 1, 1000))]))
  }

  lemma FirstIsForgotten(shop: Shop, b: Binding) returns (w: World)
    requires InScope(shop, b)
    ensures Leads(shop, Start(SHELF), FirstHandling(shop, b), w) && Afterwards(shop, b, w)
  {
    hide Leads, InScope, Sold, Held, ToCheckout, M.Place, Confirmation, Confirming, FirstDial, Met, Blank;
    StartIsBlank();
    var session := Confirming(shop, b, 1);
    var w1 := ReachesCheckout(shop, Start(SHELF), 0, 1, b, session, 0);
    Places(shop, w1, 1, b, 1, 100);
    var w2 := w1.(market := Sold(shop, b, 1, 100), effects := w1.effects[1 := PlaceEffect(Some(M.Created(1)), 100, true)],
                  created := w1.created + [Creation(Confirmation(shop, b).Identity(), 1)]);
    Forgets(shop, w2, 1, b, session);
    w := w2.(sys := Apply(shop.cfg, w2.sys, Tick(1000)));
    LeadOn(shop, w1, [Perform(1, Units(1), 100)], w2, [Protocol(Tick(1000))], w);
    LeadOn(shop, Start(SHELF), ToCheckout(shop, 0, 1, b, session, 0), w1, [Perform(1, Units(1), 100)] + [Protocol(Tick(1000))], w);
  }

  lemma SecondAnswers(shop: Shop, b: Binding, w3: World) returns (w: World)
    requires InScope(shop, b) && Afterwards(shop, b, w3)
    ensures Leads(shop, w3, SecondHandling(shop, b), w) && w.market == w3.market && w.created == w3.created
    ensures |w.sys.lives| == 2 && |w.sys.lives[1].entries| == 2
    ensures w.sys.lives[1].entries[1]
         == Entry(Receipt(Confirmation(shop, b).Identity(), 1, PlacedText(1, 200, "Depot")), 3, Normal, Some(Confirming(shop, b, 2)))
  {
    hide Leads, InScope, Sold, Held, ToCheckout, PlacedText, M.Place, Confirmation, Confirming, FirstDial, Met, Blank;
    PlacedIsFormatted(1, 200, "Depot");
    hide Formatted;
    var session := Confirming(shop, b, 2);
    var w4 := ReachesCheckout(shop, w3, 2, 3, b, session, 1000);
    PlacesAgain(shop, w4, 3, b, 2, 200);
    var w5 := w4.(effects := w4.effects[3 := PlaceEffect(Some(M.Created(1)), 200, false)]);
    AnswersOwnTotal(shop, w5, 3, b, 2, 200);
    var w6 := w5.(sys := Apply(shop.cfg, w5.sys, Finish(3, PlacedText(1, 200, "Depot"), session)));
    Commits(shop, w6, 3, b, session, false, 1000, PlacedText(1, 200, "Depot"), session);
    w := w6.(sys := Apply(shop.cfg, w6.sys, Install(3, 1, 1000)));
    LeadOn(shop, w5, [Handled(3, "", session)], w6, [Protocol(Install(3, 1, 1000))], w);
    LeadOn(shop, w4, [Perform(3, Units(2), 200)], w5, [Handled(3, "", session)] + [Protocol(Install(3, 1, 1000))], w);
    LeadOn(shop, w3, ToCheckout(shop, 2, 3, b, session, 1000), w4,
           [Perform(3, Units(2), 200)] + ([Handled(3, "", session)] + [Protocol(Install(3, 1, 1000))]), w);
  }

  /** The committed answer of the second lifetime states 200 for the order that the market holds at 100. */
  lemma ReplayMisstates(shop: Shop, b: Binding) returns (w: World)
    requires InScope(shop, b)
    ensures Leads(shop, Start(SHELF), FirstHandling(shop, b) + SecondHandling(shop, b), w)
    ensures |w.sys.lives| == 2 && |w.sys.lives[1].entries| == 2
    ensures var e := w.sys.lives[1].entries[1];
      && e == Entry(Receipt(Confirmation(shop, b).Identity(), 1, PlacedText(1, 200, "Depot")), 3, Normal, Some(Confirming(shop, b, 2)))
      && 1 in w.market.orders && w.market.orders[1].total == 100
      && e.receipt.response != PlacedText(1, w.market.orders[1].total, "Depot")
    ensures w.created == [Creation(Confirmation(shop, b).Identity(), 1)]
  {
    SoldIs(shop, b, 1, 100);
    TextsDiffer(1, 1, 100, 200, "Depot", "Depot");
    hide Leads, InScope, Sold, PlacedText, M.Place, Confirmation, Confirming, Blank, FirstHandling, SecondHandling;
    var w3 := FirstIsForgotten(shop, b);
    w := SecondAnswers(shop, b, w3);
    LeadOn(shop, Start(SHELF), FirstHandling(shop, b), w3, SecondHandling(shop, b), w);
  }
}
