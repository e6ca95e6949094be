/**
  The turn protocol composed with the market (examples/live-market/provider.js, app.js): handlers place
  and cancel orders under the turn's idempotency key, recoveries read the journal, and other customers
  trade at any time. A handler whose ownership was taken over may still perform its effect later.
 */
module Recovery {
  import opened Wrappers
  import opened TurnTypes
  import opened TurnStoreSpec
  import opened TurnGateway
  import opened TurnProtocol
  import opened TurnInvariant
  import opened OrderTexts
  import M = Market
  import T = Transcript

  /** A deployment: the gateway, and how the market normalises a caller's number. */
  datatype Shop = Shop(cfg: Config, normalise: string -> string)

  // ---- what a turn of the market's flow does ----

  datatype Action = Checkout | Withdraw | Other

  /** The two states whose input "1" has an effect on the market. */
  function ActionOf(before: Option<Session>, turn: Fingerprint): Action {
    if before.None? || T.LatestInput(turn.transcript) != "1" then Other
    else if before.value.state == Some("CONFIRM") then Checkout
    else if before.value.state == Some("ORDER_DETAIL") then Withdraw
    else Other
  }

  function TextAt(session: Session, field: string): string {
    if field in session.data && session.data[field].JText? then session.data[field].text else ""
  }

  function Cart(session: Session): map<string, int> {
    if "cart" in session.data && session.data["cart"].JCounts? then session.data["cart"].counts else map[]
  }

  function ViewedOrder(session: Session): Option<M.OrderId> {
    if "viewOrderId" in session.data && session.data["viewOrderId"].JNumber? then Some(session.data["viewOrderId"].number) else None
  }

  /** Object.entries of a cart, after placeOrder's checks: some order of its products, each with a positive quantity. */
  ghost predicate ItemsOf(cart: map<string, int>, items: seq<M.Item>) {
    && items != []
    && M.DistinctItems(items)
    && (forall item <- items :: item.sku in cart && cart[item.sku] == item.quantity >= 1)
    && (forall sku <- cart :: exists item <- items :: item.sku == sku)
  }

  const NOT_CANCELLED: Response := "END Order could not be cancelled."

  function WithdrawalText(session: Session, result: M.CancelResult): Response {
    if result == M.CancelResult.Cancel then
      if ViewedOrder(session).Some? then WithdrawnText(ViewedOrder(session).value) else HEAD + "undefined" + CANCELLED
    else NOT_CANCELLED
  }

  const NOT_FOUND: Response := "END Order not found"

  /** getOrder: an order is shown only to the phone it was placed from. */
  function GetOrder(m: M.Market, id: M.OrderId, phone: string): Option<M.Order> {
    if id in m.orders && m.orders[id].phone == phone then Some(m.orders[id]) else None
  }

  /** `total` is what the handler itself added up from the cart; `unused` says whether its key was unused when the effect ran. */
  datatype Effect =
    | PlaceEffect(place: Option<M.PlaceResult>, total: int, unused: bool)
    | WithdrawEffect(withdraw: Option<M.CancelResult>)
    | NoOrder

  /** The handler's answer after its effect; None when it throws. A cart correction is any CON screen. */
  function HandlerAnswer(m: M.Market, session: Session, phone: string, effect: Effect, screen: Response): Option<Response> {
    match effect
    case NoOrder => Some(NOT_FOUND)
    case WithdrawEffect(result) => Some(if result.Some? then WithdrawalText(session, result.value) else NOT_CANCELLED)
    case PlaceEffect(None, _, _) => None
    case PlaceEffect(Some(OutOfStock(_, _)), _, _) => if "CON " <= screen then Some(screen) else None
    case PlaceEffect(Some(Existing(id, status)), _, _) =>
      var order := GetOrder(m, id, phone);
      if order.None? then None
      else if status == Some(M.Cancelled) then Some(CancelledText(id))
      else Some(PlacedText(id, order.value.total, TextAt(session, "pickup")))
    case PlaceEffect(Some(Created(id)), total, _) => Some(PlacedText(id, total, TextAt(session, "pickup")))
  }

  /** recoverTurn: reconstruct the answer from the journal, or leave the operation pending. */
  function RecoveredAnswer(m: M.Market, session: Option<Session>, key: M.Key): Option<Response> {
    if session.None? || key !in m.journal then None
    else
      var s := session.value;
      var entry := m.journal[key];
      if s.state == Some("CONFIRM") then
        if !entry.PlaceEntry? || entry.place.OutOfStock? then None
        else
          var order := GetOrder(m, entry.place.id, TextAt(s, "phone"));
          if order.None? then None
          else if entry.place.Existing? && entry.place.status == Some(M.Cancelled) then Some(CancelledText(entry.place.id))
          else Some(PlacedText(entry.place.id, order.value.total, TextAt(s, "pickup")))
      else if s.state == Some("ORDER_DETAIL") then
        Some(if entry.CancelEntry? then WithdrawalText(s, entry.cancel) else NOT_CANCELLED)
      else None
  }

  // ---- the composed system ----

  datatype Creation = Creation(key: M.Key, id: M.OrderId)

  /**
    `effects` are the results handlers hold in memory. `created` is history: every order that a keyed
    transaction brought into the market, read off the market itself.
   */
  datatype World = World(sys: System, market: M.Market, effects: map<Token, Effect>, created: seq<Creation>)

  datatype Event =
    | Protocol(step: Step)
    | Perform(id: Token, items: seq<M.Item>, total: int)
    | Handled(doer: Token, screen: Response, after: Session)
    | Recovered(recoverer: Token, restored: Session)
    | Others(op: M.Op)

  function KeyOfOp(op: M.Op): Option<M.Key> {
    match op
    case PlaceOp(_, _, key) => key
    case CancelOp(_, _, key) => key
    case EventOp(_, _) => None
  }

  /** The orders the market holds after a transaction and did not hold before, under the key it was given. */
  function Creations(m: M.Market, m': M.Market, key: Option<M.Key>): seq<Creation> {
    if key.None? || m'.sequence <= m.sequence then []
    else seq(m'.sequence - m.sequence, i requires i >= 0 => Creation(key.value, m.sequence + 1 + i))
  }

  predicate IsWorking(w: World, id: Token, kind: Kind) {
    id in w.sys.requests && w.sys.requests[id].stage.Working? && w.sys.requests[id].stage.pending.kind == kind
  }

  function ActionAt(w: World, id: Token): Action
    requires id in w.sys.requests && w.sys.requests[id].stage.Working?
  {
    ActionOf(w.sys.requests[id].stage.session, w.sys.requests[id].turn.Identity())
  }

  ghost predicate CanHappen(shop: Shop, w: World, e: Event) {
    match e
    case Protocol(step) =>
      && Enabled(shop.cfg, w.sys, step)
      && (step.Finish? ==> IsWorking(w, step.id, Normal) && ActionAt(w, step.id).Other?)
    case Perform(id, items, total) =>
      && IsWorking(w, id, Normal) && id !in w.effects
      && (ActionAt(w, id).Checkout? ==> ItemsOf(Cart(w.sys.requests[id].stage.session.value), items))
      && !ActionAt(w, id).Other?
    case Handled(id, screen, after) =>
      && IsWorking(w, id, Normal) && !ActionAt(w, id).Other? && id in w.effects
      && var r := w.sys.requests[id];
      var answer := HandlerAnswer(w.market, r.stage.session.value, shop.normalise(r.turn.binding.phoneNumber), w.effects[id], screen);
      answer.Some? && Formatted(answer.value)
    case Recovered(id, after) =>
      && IsWorking(w, id, Recovery)
      && var r := w.sys.requests[id];
      var answer := RecoveredAnswer(w.market, r.stage.session, r.turn.Identity());
      answer.Some? && Formatted(answer.value)
    case Others(op) => M.WellFormed(op) && (KeyOfOp(op).Some? ==> KeyOfOp(op).value.sessionKey != shop.cfg.key)
  }

  /** The order a checkout handler submits. */
  function OrderOf(session: Session, phone: string, items: seq<M.Item>, total: int): M.Order {
    M.Order(phone, items, TextAt(session, "pickup"), total, M.Placed)
  }

  function ApplyPerform(shop: Shop, w: World, id: Token, items: seq<M.Item>, total: int): World
    requires IsWorking(w, id, Normal) && !ActionAt(w, id).Other?
  {
    var r := w.sys.requests[id];
    var session := r.stage.session.value;
    var phone := shop.normalise(r.turn.binding.phoneNumber);
    var key := r.turn.Identity();
    if ActionAt(w, id).Checkout? then
      var (m, result) := M.Place(w.market, shop.cfg.key, OrderOf(session, phone, items, total), Some(key));
      w.(market := m, effects := w.effects[id := PlaceEffect(result, total, key !in w.market.journal)],
         created := w.created + Creations(w.market, m, Some(key)))
    else
      var viewed := ViewedOrder(session);
      if viewed.None? || GetOrder(w.market, viewed.value, phone).None? then w.(effects := w.effects[id := NoOrder])
      else
        var (m, result) := M.CancelOrder(w.market, viewed.value, phone, Some(key));
        w.(market := m, effects := w.effects[id := WithdrawEffect(result)],
           created := w.created + Creations(w.market, m, Some(key)))
  }

  ghost function Happen(shop: Shop, w: World, e: Event): (w': World)
    requires |w.sys.lives| > 0 && CanHappen(shop, w, e)
    ensures |w'.sys.lives| > 0
  {
    match e
    case Protocol(step) => w.(sys := Apply(shop.cfg, w.sys, step))
    case Perform(id, items, total) => ApplyPerform(shop, w, id, items, total)
    case Handled(id, screen, after) =>
      var r := w.sys.requests[id];
      var answer := HandlerAnswer(w.market, r.stage.session.value, shop.normalise(r.turn.binding.phoneNumber), w.effects[id], screen);
      w.(sys := Apply(shop.cfg, w.sys, Finish(id, answer.value, after)))
    case Recovered(id, after) =>
      var r := w.sys.requests[id];
      w.(sys := Apply(shop.cfg, w.sys, Finish(id, RecoveredAnswer(w.market, r.stage.session, r.turn.Identity()).value, after)))
    case Others(op) =>
      var m := M.Perform(w.market, op);
      w.(market := m, created := w.created + Creations(w.market, m, KeyOfOp(op)))
  }

  // ---- what a committed answer says ----

  /**
    The answer of a turn agrees with what the journal holds under the turn's key, and any order it names
    exists. A placement reports `claimed`, or the stored order's own total where nothing is claimed.
   */
  ghost predicate Reported(m: M.Market, before: Option<Session>, key: M.Key, response: Response, claimed: Option<int>) {
    match ActionOf(before, key)
    case Other => true
    case Checkout =>
      && key in m.journal && m.journal[key].PlaceEntry?
      && PlacementReported(m, m.journal[key].place, TextAt(before.value, "pickup"), response, claimed)
    case Withdraw =>
      || response == NOT_FOUND
      || (key in m.journal
          && response == if m.journal[key].CancelEntry? then WithdrawalText(before.value, m.journal[key].cancel) else NOT_CANCELLED)
  }

  ghost predicate PlacementReported(m: M.Market, result: M.PlaceResult, pickup: string, response: Response, claimed: Option<int>) {
    match result
    case OutOfStock(_, _) => !IsEnd(response)
    case Created(id) =>
      && id in m.orders
      && response == PlacedText(id, if claimed.Some? then claimed.value else m.orders[id].total, pickup)
    case Existing(id, status) =>
      && id in m.orders
      && response == if status == Some(M.Cancelled) then CancelledText(id) else PlacedText(id, m.orders[id].total, pickup)
  }

  /** The total an answer states: a handler's own sum; a recovery states the stored one. */
  function Claimed(w: World, token: Token, kind: Kind): Option<int> {
    if kind == Normal && token in w.effects && w.effects[token].PlaceEffect? then Some(w.effects[token].total) else None
  }

  /** A checkout that a handler answered had its effect. */
  ghost predicate Acted(w: World, token: Token, kind: Kind, before: Option<Session>, key: M.Key) {
    kind == Normal && ActionOf(before, key).Checkout? ==>
      && token in w.effects && w.effects[token].PlaceEffect?
      && token in w.sys.requests && w.sys.requests[token].turn.Identity() == key
  }

  ghost predicate AnswerOk(w: World, token: Token, kind: Kind, before: Option<Session>, key: M.Key, response: Response) {
    Acted(w, token, kind, before, key) && Reported(w.market, before, key, response, Claimed(w, token, kind))
  }

  ghost predicate EntryReported(w: World, entry: Entry) {
    AnswerOk(w, entry.token, entry.kind, entry.before, entry.receipt.fingerprint, entry.receipt.response)
  }

  predicate HasStarted(stage: Stage) { PastClaim(stage) && !stage.Owner? }

  /** A handler's effect is of the kind its action asks for. */
  ghost predicate EffectMatches(effect: Effect, r: Request) {
    r.stage.Working? ==>
      var action := ActionOf(r.stage.session, r.turn.Identity());
      if effect.PlaceEffect? then action.Checkout? else action.Withdraw?
  }

  /** A handler's remembered result is the journalled one; under a key it found unused, so is its total. */
  ghost predicate EffectOk(w: World, id: Token)
    requires id in w.effects
  {
    && id in w.sys.requests && HasStarted(w.sys.requests[id].stage)
    && EffectMatches(w.effects[id], w.sys.requests[id])
    && var key := w.sys.requests[id].turn.Identity();
    match w.effects[id]
    case NoOrder => true
    case PlaceEffect(result, total, unused) =>
      && key in w.market.journal
      && (if result.Some? then w.market.journal[key] == M.PlaceEntry(result.value) else w.market.journal[key].CancelEntry?)
      && (|w.sys.lives| == 1 ==> unused)
      && (unused && result.Some? && result.value.Created? ==>
            result.value.id in w.market.orders && w.market.orders[result.value.id].total == total)
    case WithdrawEffect(result) =>
      && key in w.market.journal
      && (if result.Some? then w.market.journal[key] == M.CancelEntry(result.value) else w.market.journal[key].PlaceEntry?)
  }

  /** Every order a journal entry names exists. */
  ghost predicate JournalOk(m: M.Market) {
    forall key <- m.journal :: m.journal[key].PlaceEntry? ==>
      match m.journal[key].place
      case OutOfStock(_, _) => true
      case Created(id) => id in m.orders
      case Existing(id, _) => id in m.orders
  }

  /** A request that had won its turn's revision in that lifetime acted under the key. */
  ghost predicate ActedUnder(w: World, key: M.Key, id: Token, life: nat) {
    && id in w.effects && !w.effects[id].NoOrder?
    && id in w.sys.requests && w.sys.requests[id].turn.Identity() == key
    && life < |w.sys.lives| && Win(life, key.position, id) in w.sys.wins
  }

  /** Whatever this session's turns journalled, such a request did it. */
  ghost predicate Authored(w: World, key: M.Key) { exists id: Token, life: nat :: ActedUnder(w, key, id, life) }

  ghost predicate StageOk(w: World, id: Token)
    requires id in w.sys.requests
  {
    var r := w.sys.requests[id];
    r.stage.Prepared? ==> AnswerOk(w, id, r.stage.pending.kind, r.stage.session, r.turn.Identity(), r.stage.response)
  }

  ghost predicate EntriesOk(w: World) {
    forall k, i | 0 <= k < |w.sys.lives| && 0 <= i < |w.sys.lives[k].entries| :: EntryReported(w, w.sys.lives[k].entries[i])
  }

  /** One key, one order; and the journal names it. */
  ghost predicate CreatedOk(w: World) {
    && (forall i | 0 <= i < |w.created| ::
          w.created[i].key in w.market.journal && w.market.journal[w.created[i].key] == M.PlaceEntry(M.Created(w.created[i].id)))
    && (forall i, j | 0 <= i < j < |w.created| :: w.created[i].key != w.created[j].key)
  }

  ghost predicate WorldInv(shop: Shop, seeded: map<M.Sku, int>, w: World) {
    && Inv(shop.cfg, w.sys)
    && M.Conserved(w.market, seeded)
    && JournalOk(w.market)
    && (forall id <- w.effects :: EffectOk(w, id))
    && (forall key <- w.market.journal :: key.sessionKey == shop.cfg.key ==> Authored(w, key))
    && (forall id <- w.sys.requests :: StageOk(w, id))
    && EntriesOk(w)
    && CreatedOk(w)
  }

  // ---- preservation ----

  lemma ReportedStable(m: M.Market, m': M.Market, before: Option<Session>, key: M.Key, response: Response, claimed: Option<int>)
    requires M.Settled(m, m') && Reported(m, before, key, response, claimed)
    ensures Reported(m', before, key, response, claimed)
  {
  }

  /** An answer stays a reported one while the market moves on and others act. */
  lemma AnswerStable(w: World, w': World, token: Token, kind: Kind, before: Option<Session>, key: M.Key, response: Response)
    requires AnswerOk(w, token, kind, before, key, response) && M.Settled(w.market, w'.market) && w'.sys == w.sys
    requires forall j <- w.effects :: j in w'.effects && w'.effects[j] == w.effects[j]
    ensures AnswerOk(w', token, kind, before, key, response)
  {
    ReportedStable(w.market, w'.market, before, key, response, Claimed(w, token, kind));
    hide M.Settled, PlacementReported;
  }

  /** A step of the market, and of no request but one that is at work, keeps everything that was settled before. */
  lemma MarketStepKeeps(shop: Shop, seeded: map<M.Sku, int>, w: World, w': World)
    requires WorldInv(shop, seeded, w) && M.Settled(w.market, w'.market) && w'.sys == w.sys
    requires forall j <- w.effects :: j in w'.effects && w'.effects[j] == w.effects[j]
    ensures forall j <- w.effects :: EffectOk(w', j)
    ensures forall id <- w'.sys.requests :: StageOk(w', id)
    ensures EntriesOk(w')
  {
    hide Inv, M.Conserved, JournalOk, Authored, CreatedOk, AnswerOk, M.Settled;
    forall id <- w.effects
      ensures EffectOk(w', id)
    {
      EffectStable(w, w', id);
    }
    hide EffectOk;
    forall id <- w'.sys.requests
      ensures StageOk(w', id)
    {
      var r := w.sys.requests[id];
      assert StageOk(w, id);
      if r.stage.Prepared? {
        AnswerStable(w, w', id, r.stage.pending.kind, r.stage.session, r.turn.Identity(), r.stage.response);
      }
    }
    forall k, i | 0 <= k < |w'.sys.lives| && 0 <= i < |w'.sys.lives[k].entries|
      ensures EntryReported(w', w'.sys.lives[k].entries[i])
    {
      var e := w.sys.lives[k].entries[i];
      assert EntryReported(w, e);
      AnswerStable(w, w', e.token, e.kind, e.before, e.receipt.fingerprint, e.receipt.response);
    }
  }

  lemma EffectStable(w: World, w': World, id: Token)
    requires id in w.effects && EffectOk(w, id) && M.Settled(w.market, w'.market) && w'.sys == w.sys
    requires id in w'.effects && w'.effects[id] == w.effects[id]
    ensures EffectOk(w', id)
  {
  }

  lemma JournalStable(m: M.Market, seeded: map<M.Sku, int>, op: M.Op)
    requires M.Conserved(m, seeded) && JournalOk(m)
    ensures JournalOk(M.Perform(m, op))
  {
    var m' := M.Perform(m, op);
    M.StepSettles(m, seeded, op);
    forall key <- m'.journal
      ensures m'.journal[key].PlaceEntry? && !m'.journal[key].place.OutOfStock? ==> m'.journal[key].place.id in m'.orders
    {
      if key in m.journal {
        assert m'.journal[key] == m.journal[key];
      } else {
        NewEntryOk(m, seeded, op, key);
      }
    }
  }

  lemma NewEntryOk(m: M.Market, seeded: map<M.Sku, int>, op: M.Op, key: M.Key)
    requires M.Conserved(m, seeded) && key !in m.journal && key in M.Perform(m, op).journal
    ensures KeyOfOp(op) == Some(key)
    ensures var m' := M.Perform(m, op); m'.journal[key].PlaceEntry? && !m'.journal[key].place.OutOfStock? ==> m'.journal[key].place.id in m'.orders
  {
  }

  lemma MarketConserves(m: M.Market, seeded: map<M.Sku, int>, op: M.Op)
    requires M.Conserved(m, seeded) && M.WellFormed(op)
    ensures M.Conserved(M.Perform(m, op), seeded)
  {
    assert M.PerformAll(m, [op]) == M.Perform(m, op) by { assert [op][1..] == []; }
    M.RunConserves(m, seeded, [op]);
  }

  /** A transaction creates at most one order, under a key it finds unused, and journals it. */
  lemma OneCreation(m: M.Market, seeded: map<M.Sku, int>, op: M.Op)
    requires M.Conserved(m, seeded)
    ensures var m' := M.Perform(m, op);
      var more := Creations(m, m', KeyOfOp(op));
      && |more| <= 1
      && (|more| == 1 ==> more[0].key !in m.journal && more[0].key in m'.journal && m'.journal[more[0].key] == M.PlaceEntry(M.Created(more[0].id)))
  {
  }

  lemma CreatedStays(w: World, w': World, seeded: map<M.Sku, int>, op: M.Op)
    requires M.Conserved(w.market, seeded) && CreatedOk(w) && w'.market == M.Perform(w.market, op)
    requires w'.created == w.created + Creations(w.market, w'.market, KeyOfOp(op))
    ensures CreatedOk(w')
  {
    OneCreation(w.market, seeded, op);
    M.StepSettles(w.market, seeded, op);
    hide M.Conserved, M.Perform, Creations;
  }

  lemma OthersKeep(shop: Shop, seeded: map<M.Sku, int>, w: World, op: M.Op)
    requires WorldInv(shop, seeded, w) && CanHappen(shop, w, Others(op))
    ensures WorldInv(shop, seeded, Happen(shop, w, Others(op)))
  {
    var w' := Happen(shop, w, Others(op));
    hide Inv, M.Conserved, M.Settled, JournalOk, StageOk, EntriesOk, CreatedOk, EffectOk, ActedUnder;
    MarketConserves(w.market, seeded, op);
    M.StepSettles(w.market, seeded, op);
    JournalStable(w.market, seeded, op);
    MarketStepKeeps(shop, seeded, w, w');
    CreatedStays(w, w', seeded, op);
    forall key <- w'.market.journal | key.sessionKey == shop.cfg.key
      ensures Authored(w', key)
    {
      if key !in w.market.journal {
        NewEntryOk(w.market, seeded, op, key);
        assert false;
      }
      var id: Token, life: nat :| ActedUnder(w, key, id, life);
      StillActed(w, w', key, id, life);
    }
  }

  lemma StillActed(w: World, w': World, key: M.Key, id: Token, life: nat)
    requires ActedUnder(w, key, id, life) && id in w'.effects && w'.effects[id] == w.effects[id]
    requires id in w'.sys.requests && w'.sys.requests[id].turn == w.sys.requests[id].turn
    requires |w.sys.lives| <= |w'.sys.lives| && forall win <- w.sys.wins :: win in w'.sys.wins
    ensures ActedUnder(w', key, id, life)
  {
  }

  /** What a protocol step leaves alone. */
  ghost predicate Frames(s: System, s': System, step: Step) {
    && |s.lives| <= |s'.lives|
    && (forall w <- s.wins :: w in s'.wins)
    && (forall j <- s.requests ::
          && j in s'.requests && s'.requests[j].turn == s.requests[j].turn
          && (HasStarted(s.requests[j].stage) ==> HasStarted(s'.requests[j].stage))
          && (s'.requests[j].stage.Working? ==> s'.requests[j] == s.requests[j] || s.requests[j].stage.Owner?))
    && (forall j <- s'.requests :: s'.requests[j].stage.Prepared? ==>
          (j in s.requests && s'.requests[j] == s.requests[j]) || (step.Finish? && step.id == j))
  }

  lemma SettleFrames(s: System, id: Token, v: Verdict, step: Step)
    requires |s.lives| > 0 && id in s.requests && !PastClaim(s.requests[id].stage)
    ensures Frames(s, Settle(s, id, v), step) && Settle(s, id, v).lives == s.lives
  {
  }

  lemma ClaimFrames(s: System, step: Step)
    requires |s.lives| > 0 && step.TryClaim? && step.id in s.requests && s.requests[step.id].stage.Admitted?
    ensures Frames(s, ApplyClaim(s, step.id, step.ttl, step.leaseMs, step.deadlineAt), step)
  {
  }

  lemma InstallFrames(s: System, step: Step)
    requires |s.lives| > 0 && step.Install? && step.id in s.requests && s.requests[step.id].stage.Prepared?
    ensures Frames(s, ApplyInstall(s, step.id, step.commitTtl, step.activeMs), step)
  {
  }

  lemma StepFrames(cfg: Config, s: System, step: Step)
    requires |s.lives| > 0 && Enabled(cfg, s, step)
    ensures Frames(s, Apply(cfg, s, step), step)
  {
    match step
    case Decide(id) =>
      var r := s.requests[id];
      SettleFrames(s, id, Admit(cfg, r.turn, r.recovering, r.stage.seen, s.event.Some?, id), step);
    case ReadAgain(id) => SettleFrames(s, id, AfterLostClaim(cfg, s.requests[id].turn, Read(s.slot, s.now)), step);
    case TryClaim(_, _, _, _) => ClaimFrames(s, step);
    case Install(_, _, _) => InstallFrames(s, step);
    case _ =>
  }

  /** The entries after a step: those before it, and one more when a prepared request installs. */
  lemma StepEntries(cfg: Config, s: System, step: Step, k: nat, i: nat)
    requires |s.lives| > 0 && Enabled(cfg, s, step)
    requires k < |Apply(cfg, s, step).lives| && i < |Apply(cfg, s, step).lives[k].entries|
    ensures var e := Apply(cfg, s, step).lives[k].entries[i];
      (k < |s.lives| && i < |s.lives[k].entries| && e == s.lives[k].entries[i])
      || (step.Install? && step.id in s.requests && s.requests[step.id].stage.Prepared?
          && var p := s.requests[step.id].stage;
             e == Entry(Receipt(s.requests[step.id].turn.Identity(), s.requests[step.id].turn.Position(), p.response), step.id, p.pending.kind, p.session))
  {
    match step
    case Decide(_) => assert Apply(cfg, s, step).lives == s.lives;
    case ReadAgain(_) => assert Apply(cfg, s, step).lives == s.lives;
    case _ =>
  }

  /** A protocol step keeps the world's invariant, given that an answer it has just prepared is a reported one. */
  lemma SystemStepKeeps(shop: Shop, seeded: map<M.Sku, int>, w: World, step: Step)
    requires WorldInv(shop, seeded, w) && Enabled(shop.cfg, w.sys, step)
    requires step.Finish? ==> StageOk(w.(sys := Apply(shop.cfg, w.sys, step)), step.id)
    ensures WorldInv(shop, seeded, w.(sys := Apply(shop.cfg, w.sys, step)))
  {
    var w' := w.(sys := Apply(shop.cfg, w.sys, step));
    StepKeeps(shop.cfg, w.sys, step);
    StepFrames(shop.cfg, w.sys, step);
    StagesKeep(shop, seeded, w, step);
    EntriesKeep(shop, seeded, w, step);
    hide Inv, Apply, Enabled, M.Conserved, JournalOk, EffectOk, Authored, StageOk, EntriesOk, CreatedOk;
    EffectsKeep(w, w', step);
    AuthorsKeep(shop, w, w', step);
    SameCreated(w, w');
  }

  lemma EffectsKeep(w: World, w': World, step: Step)
    requires (forall id <- w.effects :: EffectOk(w, id)) && Frames(w.sys, w'.sys, step) && |w.sys.lives| > 0
    requires w'.market == w.market && w'.effects == w.effects
    ensures forall id <- w'.effects :: EffectOk(w', id)
  {
    forall id <- w'.effects
      ensures EffectOk(w', id)
    {
      assert EffectOk(w, id);
    }
  }

  lemma AuthorsKeep(shop: Shop, w: World, w': World, step: Step)
    requires (forall key <- w.market.journal :: key.sessionKey == shop.cfg.key ==> Authored(w, key)) && Frames(w.sys, w'.sys, step)
    requires w'.market == w.market && w'.effects == w.effects
    ensures forall key <- w'.market.journal :: key.sessionKey == shop.cfg.key ==> Authored(w', key)
  {
    hide ActedUnder;
    forall key <- w'.market.journal | key.sessionKey == shop.cfg.key
      ensures Authored(w', key)
    {
      var id: Token, life: nat :| ActedUnder(w, key, id, life);
      ActorIsRequest(w, key, id, life);
      StillActed(w, w', key, id, life);
    }
  }

  lemma ActorIsRequest(w: World, key: M.Key, id: Token, life: nat)
    requires ActedUnder(w, key, id, life)
    ensures id in w.sys.requests && id in w.effects
  {
  }

  lemma SameCreated(w: World, w': World)
    requires CreatedOk(w) && w'.market == w.market && w'.created == w.created
    ensures CreatedOk(w')
  {
  }

  lemma StagesKeep(shop: Shop, seeded: map<M.Sku, int>, w: World, step: Step)
    requires WorldInv(shop, seeded, w) && Enabled(shop.cfg, w.sys, step) && Frames(w.sys, Apply(shop.cfg, w.sys, step), step)
    requires step.Finish? ==> StageOk(w.(sys := Apply(shop.cfg, w.sys, step)), step.id)
    ensures var w' := w.(sys := Apply(shop.cfg, w.sys, step)); forall id <- w'.sys.requests :: StageOk(w', id)
  {
    var w' := w.(sys := Apply(shop.cfg, w.sys, step));
    hide Inv, Apply, Enabled, M.Conserved, JournalOk, Authored, EntriesOk, CreatedOk, EffectOk, AnswerOk;
    forall id <- w'.sys.requests
      ensures StageOk(w', id)
    {
      var r := w'.sys.requests[id];
      if r.stage.Prepared? && !(step.Finish? && step.id == id) {
        assert StageOk(w, id);
        SameAnswer(w, w', id, r.stage.pending.kind, r.stage.session, r.turn.Identity(), r.stage.response);
      }
    }
  }

  lemma SameAnswer(w: World, w': World, token: Token, kind: Kind, before: Option<Session>, key: M.Key, response: Response)
    requires AnswerOk(w, token, kind, before, key, response) && w'.market == w.market && w'.effects == w.effects
    requires forall j <- w.sys.requests :: j in w'.sys.requests && w'.sys.requests[j].turn == w.sys.requests[j].turn
    ensures AnswerOk(w', token, kind, before, key, response)
  {
  }

  lemma EntriesKeep(shop: Shop, seeded: map<M.Sku, int>, w: World, step: Step)
    requires WorldInv(shop, seeded, w) && Enabled(shop.cfg, w.sys, step)
    ensures EntriesOk(w.(sys := Apply(shop.cfg, w.sys, step)))
  {
    var w' := w.(sys := Apply(shop.cfg, w.sys, step));
    StepFrames(shop.cfg, w.sys, step);
    hide Inv, Apply, Enabled, M.Conserved, JournalOk, Authored, CreatedOk, EffectOk, AnswerOk;
    forall k, i | 0 <= k < |w'.sys.lives| && 0 <= i < |w'.sys.lives[k].entries|
      ensures EntryReported(w', w'.sys.lives[k].entries[i])
    {
      var e := w'.sys.lives[k].entries[i];
      StepEntries(shop.cfg, w.sys, step, k, i);
      if k < |w.sys.lives| && i < |w.sys.lives[k].entries| && e == w.sys.lives[k].entries[i] {
        assert EntryReported(w, w.sys.lives[k].entries[i]);
      } else {
        assert StageOk(w, step.id);
      }
      SameAnswer(w, w', e.token, e.kind, e.before, e.receipt.fingerprint, e.receipt.response);
    }
  }

  lemma SameWinner(s: System, life: nat, revision: nat, a: Token, b: Token)
    requires |s.lives| > 0 && WinsInv(s) && Win(life, revision, a) in s.wins && Win(life, revision, b) in s.wins
    ensures a == b
  {
    var i :| 0 <= i < |s.wins| && s.wins[i] == Win(life, revision, a);
    var j :| 0 <= j < |s.wins| && s.wins[j] == Win(life, revision, b);
    assert !(i < j) && !(j < i);
  }

  /**
    A handler that has not acted yet finds its key used exactly when a request of another record lifetime
    acted under the same identity: within a lifetime nobody else can have.
   */
  lemma KeyUsedAcrossLives(shop: Shop, seeded: map<M.Sku, int>, w: World, id: Token)
    requires WorldInv(shop, seeded, w) && IsWorking(w, id, Normal) && id !in w.effects
    ensures var r := w.sys.requests[id];
      r.turn.Identity() in w.market.journal
      <==> exists b: Token, life: nat :: life != r.stage.life && ActedUnder(w, r.turn.Identity(), b, life)
  {
    var r := w.sys.requests[id];
    var key := r.turn.Identity();
    assert RequestOk(shop.cfg, w.sys, id);
    assert Win(r.stage.life, key.position, id) in w.sys.wins;
    if key in w.market.journal {
      assert Authored(w, key);
      var b: Token, life: nat :| ActedUnder(w, key, b, life);
      if life == r.stage.life {
        SameWinner(w.sys, life, key.position, id, b);
      }
    }
    if b: Token, life: nat :| life != r.stage.life && ActedUnder(w, key, b, life) {
      assert EffectOk(w, b);
    }
  }

  lemma FirstLifeIsFresh(shop: Shop, seeded: map<M.Sku, int>, w: World, id: Token)
    requires WorldInv(shop, seeded, w) && IsWorking(w, id, Normal) && id !in w.effects && |w.sys.lives| == 1
    ensures w.sys.requests[id].turn.Identity() !in w.market.journal
  {
    KeyUsedAcrossLives(shop, seeded, w, id);
    assert RequestOk(shop.cfg, w.sys, id);
  }

  /** The market operation a handler's effect amounts to; the key it passes is its turn's. */
  function OpOf(shop: Shop, w: World, id: Token, items: seq<M.Item>, total: int): Option<M.Op>
    requires IsWorking(w, id, Normal) && !ActionAt(w, id).Other?
  {
    var r := w.sys.requests[id];
    var session := r.stage.session.value;
    var phone := shop.normalise(r.turn.binding.phoneNumber);
    if ActionAt(w, id).Checkout? then
      Some(M.PlaceOp(shop.cfg.key, OrderOf(session, phone, items, total), Some(r.turn.Identity())))
    else if ViewedOrder(session).None? || GetOrder(w.market, ViewedOrder(session).value, phone).None? then None
    else Some(M.CancelOp(ViewedOrder(session).value, phone, Some(r.turn.Identity())))
  }

  lemma PerformIsOp(shop: Shop, w: World, id: Token, items: seq<M.Item>, total: int)
    requires IsWorking(w, id, Normal) && !ActionAt(w, id).Other?
    ensures var op := OpOf(shop, w, id, items, total);
      var w' := ApplyPerform(shop, w, id, items, total);
      && w'.market == (if op.Some? then M.Perform(w.market, op.value) else w.market)
      && w'.created == (if op.Some? then w.created + Creations(w.market, w'.market, KeyOfOp(op.value)) else w.created)
      && (op.Some? ==> KeyOfOp(op.value) == Some(w.sys.requests[id].turn.Identity()))
  {
    hide M.Place, M.CancelOrder, Creations, ItemsOf;
  }

  lemma PerformedEffectIs(shop: Shop, w: World, id: Token, items: seq<M.Item>, total: int)
    requires CanHappen(shop, w, Perform(id, items, total))
    requires |w.sys.lives| == 1 ==> w.sys.requests[id].turn.Identity() !in w.market.journal
    ensures id in ApplyPerform(shop, w, id, items, total).effects && EffectOk(ApplyPerform(shop, w, id, items, total), id)
  {
    hide Creations, ItemsOf;
  }

  lemma PerformedEffectOk(shop: Shop, seeded: map<M.Sku, int>, w: World, id: Token, items: seq<M.Item>, total: int)
    requires WorldInv(shop, seeded, w) && CanHappen(shop, w, Perform(id, items, total))
    ensures id in ApplyPerform(shop, w, id, items, total).effects && EffectOk(ApplyPerform(shop, w, id, items, total), id)
  {
    if |w.sys.lives| == 1 {
      FirstLifeIsFresh(shop, seeded, w, id);
    }
    PerformedEffectIs(shop, w, id, items, total);
    hide WorldInv, CanHappen, ApplyPerform, EffectOk;
  }

  lemma PerformMarket(shop: Shop, seeded: map<M.Sku, int>, w: World, id: Token, items: seq<M.Item>, total: int)
    requires WorldInv(shop, seeded, w) && CanHappen(shop, w, Perform(id, items, total))
    ensures var w' := ApplyPerform(shop, w, id, items, total);
      M.Conserved(w'.market, seeded) && JournalOk(w'.market) && M.Settled(w.market, w'.market) && CreatedOk(w')
  {
    var op := OpOf(shop, w, id, items, total);
    var w' := ApplyPerform(shop, w, id, items, total);
    PerformIsOp(shop, w, id, items, total);
    SettledSame(w.market);
    hide M.Conserved, M.Settled, JournalOk, CreatedOk, ApplyPerform, Creations, M.Perform;
    if op.Some? {
      MarketConserves(w.market, seeded, op.value);
      M.StepSettles(w.market, seeded, op.value);
      JournalStable(w.market, seeded, op.value);
      CreatedStays(w, w', seeded, op.value);
    } else {
      SameCreated(w, w');
    }
  }

  lemma SettledSame(m: M.Market)
    ensures M.Settled(m, m)
  {
  }

  /** What an effect touches: the market, the doer's memory of it, and the list of creations. */
  lemma PerformFrame(shop: Shop, w: World, id: Token, items: seq<M.Item>, total: int)
    requires CanHappen(shop, w, Perform(id, items, total))
    ensures var w' := ApplyPerform(shop, w, id, items, total);
      && w'.sys == w.sys && w'.effects.Keys == w.effects.Keys + {id}
      && (forall j <- w.effects :: w'.effects[j] == w.effects[j])
      && (forall k <- w'.market.journal :: k in w.market.journal || (k == w.sys.requests[id].turn.Identity() && !w'.effects[id].NoOrder?))
  {
    hide Creations, ItemsOf, M.PlaceOutcome, M.CancelOutcome;
  }

  lemma DoerWon(shop: Shop, w: World, id: Token)
    requires Inv(shop.cfg, w.sys) && IsWorking(w, id, Normal)
    ensures var r := w.sys.requests[id]; r.stage.life < |w.sys.lives| && Win(r.stage.life, r.turn.Position(), id) in w.sys.wins
  {
    assert RequestOk(shop.cfg, w.sys, id);
  }

  lemma PerformKeeps(shop: Shop, seeded: map<M.Sku, int>, w: World, id: Token, items: seq<M.Item>, total: int)
    requires WorldInv(shop, seeded, w) && CanHappen(shop, w, Perform(id, items, total))
    ensures WorldInv(shop, seeded, ApplyPerform(shop, w, id, items, total))
  {
    var w' := ApplyPerform(shop, w, id, items, total);
    PerformFrame(shop, w, id, items, total);
    PerformMarket(shop, seeded, w, id, items, total);
    PerformedEffectOk(shop, seeded, w, id, items, total);
    hide Inv, EffectOk, M.Conserved, M.Settled, JournalOk, StageOk, EntriesOk, ApplyPerform, CreatedOk, ActedUnder;
    MarketStepKeeps(shop, seeded, w, w');
    DoerWon(shop, w, id);
    forall k <- w'.market.journal | k.sessionKey == shop.cfg.key
      ensures Authored(w', k)
    {
      if k in w.market.journal {
        var b: Token, life: nat :| ActedUnder(w, k, b, life);
        ActorIsRequest(w, k, b, life);
        StillActed(w, w', k, b, life);
      } else {
        DoerActed(w', k, id);
      }
    }
  }

  lemma DoerActed(w: World, key: M.Key, id: Token)
    requires id in w.effects && !w.effects[id].NoOrder? && id in w.sys.requests && w.sys.requests[id].turn.Identity() == key
    requires var r := w.sys.requests[id]; r.stage.Working? && r.stage.life < |w.sys.lives| && Win(r.stage.life, key.position, id) in w.sys.wins
    ensures Authored(w, key)
  {
    assert ActedUnder(w, key, id, w.sys.requests[id].stage.life);
  }

  lemma ContinueIsNotEnd(screen: Response)
    ensures "CON " <= screen ==> !IsEnd(screen)
  {
    if "CON " <= screen { assert screen[0] == 'C'; }
    if IsEnd(screen) { assert screen[0] == 'E'; }
  }

  lemma HandledReported(shop: Shop, w: World, id: Token, screen: Response)
    requires IsWorking(w, id, Normal) && !ActionAt(w, id).Other? && id in w.effects && EffectOk(w, id) && JournalOk(w.market)
    requires var r := w.sys.requests[id];
      HandlerAnswer(w.market, r.stage.session.value, shop.normalise(r.turn.binding.phoneNumber), w.effects[id], screen).Some?
    ensures var r := w.sys.requests[id];
      var answer := HandlerAnswer(w.market, r.stage.session.value, shop.normalise(r.turn.binding.phoneNumber), w.effects[id], screen);
      AnswerOk(w, id, Normal, r.stage.session, r.turn.Identity(), answer.value)
  {
    ContinueIsNotEnd(screen);
    var key := w.sys.requests[id].turn.Identity();
    assert key in w.market.journal && w.market.journal[key].PlaceEntry? ==>
      match w.market.journal[key].place case OutOfStock(_, _) => true case Created(o) => o in w.market.orders case Existing(o, _) => o in w.market.orders;
  }

  lemma RecoveredAnswerReported(w: World, id: Token, before: Option<Session>, key: M.Key)
    requires JournalOk(w.market) && RecoveredAnswer(w.market, before, key).Some?
    ensures AnswerOk(w, id, Recovery, before, key, RecoveredAnswer(w.market, before, key).value)
  {
  }

  lemma FinishPrepares(shop: Shop, w: World, id: Token, response: Response, after: Session)
    requires |w.sys.lives| > 0 && id in w.sys.requests && w.sys.requests[id].stage.Working? && Formatted(response)
    requires var r := w.sys.requests[id]; AnswerOk(w, id, r.stage.pending.kind, r.stage.session, r.turn.Identity(), response)
    ensures StageOk(w.(sys := Apply(shop.cfg, w.sys, Finish(id, response, after))), id)
  {
    hide Reported, Formatted;
  }

  lemma AnswerKeeps(shop: Shop, seeded: map<M.Sku, int>, w: World, id: Token, response: Response, after: Session)
    requires WorldInv(shop, seeded, w) && id in w.sys.requests && w.sys.requests[id].stage.Working? && Formatted(response)
    requires var r := w.sys.requests[id]; AnswerOk(w, id, r.stage.pending.kind, r.stage.session, r.turn.Identity(), response)
    ensures WorldInv(shop, seeded, w.(sys := Apply(shop.cfg, w.sys, Finish(id, response, after))))
  {
    assert |w.sys.lives| > 0;
    hide Inv, AnswerOk, StageOk, EffectOk, JournalOk, Formatted, Apply, EntriesOk, CreatedOk, M.Conserved, Authored;
    FinishPrepares(shop, w, id, response, after);
    SystemStepKeeps(shop, seeded, w, Finish(id, response, after));
  }

  lemma HandledKeeps(shop: Shop, seeded: map<M.Sku, int>, w: World, id: Token, screen: Response, after: Session)
    requires WorldInv(shop, seeded, w) && CanHappen(shop, w, Handled(id, screen, after))
    ensures WorldInv(shop, seeded, Happen(shop, w, Handled(id, screen, after)))
  {
    var r := w.sys.requests[id];
    assert EffectOk(w, id);
    hide Inv, AnswerOk, HandlerAnswer, StageOk, EffectOk, JournalOk, Formatted, Apply, EntriesOk, CreatedOk, M.Conserved, Authored;
    HandledReported(shop, w, id, screen);
    var answer := HandlerAnswer(w.market, r.stage.session.value, shop.normalise(r.turn.binding.phoneNumber), w.effects[id], screen);
    hide WorldInv;
    AnswerKeeps(shop, seeded, w, id, answer.value, after);
  }

  lemma RecoveredKeeps(shop: Shop, seeded: map<M.Sku, int>, w: World, id: Token, after: Session)
    requires WorldInv(shop, seeded, w) && CanHappen(shop, w, Recovered(id, after))
    ensures WorldInv(shop, seeded, Happen(shop, w, Recovered(id, after)))
  {
    var r := w.sys.requests[id];
    hide Inv, AnswerOk, RecoveredAnswer, StageOk, EffectOk, JournalOk, Formatted, Apply, EntriesOk, CreatedOk, M.Conserved, Authored;
    RecoveredAnswerReported(w, id, r.stage.session, r.turn.Identity());
    hide WorldInv;
    AnswerKeeps(shop, seeded, w, id, RecoveredAnswer(w.market, r.stage.session, r.turn.Identity()).value, after);
  }

  /** A handler without an effect on the market may answer anything. */
  lemma PlainFinishPrepares(shop: Shop, w: World, step: Step)
    requires |w.sys.lives| > 0 && step.Finish? && Enabled(shop.cfg, w.sys, step) && ActionAt(w, step.id).Other?
    ensures StageOk(w.(sys := Apply(shop.cfg, w.sys, step)), step.id)
  {
    hide Formatted;
  }

  lemma EventKeeps(shop: Shop, seeded: map<M.Sku, int>, w: World, e: Event)
    requires WorldInv(shop, seeded, w) && CanHappen(shop, w, e)
    ensures WorldInv(shop, seeded, Happen(shop, w, e))
  {
    match e
    case Protocol(step) =>
      if step.Finish? { PlainFinishPrepares(shop, w, step); }
      hide WorldInv, Enabled, Apply, StageOk;
      SystemStepKeeps(shop, seeded, w, step);
    case Perform(id, items, total) => PerformKeeps(shop, seeded, w, id, items, total);
    case Handled(id, screen, after) => HandledKeeps(shop, seeded, w, id, screen, after);
    case Recovered(id, after) => RecoveredKeeps(shop, seeded, w, id, after);
    case Others(op) => OthersKeep(shop, seeded, w, op);
  }

  // ---- runs ----

  ghost predicate Possible(shop: Shop, w: World, events: seq<Event>)
    requires |w.sys.lives| > 0
    decreases |events|
  {
    events == [] || (CanHappen(shop, w, events[0]) && Possible(shop, Happen(shop, w, events[0]), events[1..]))
  }

  ghost function RunWorld(shop: Shop, w: World, events: seq<Event>): (w': World)
    requires |w.sys.lives| > 0 && Possible(shop, w, events)
    ensures |w'.sys.lives| > 0
    decreases |events|
  {
    if events == [] then w else RunWorld(shop, Happen(shop, w, events[0]), events[1..])
  }

  /** A session that has not begun, over a market other customers may have used. */
  ghost predicate Opening(shop: Shop, seeded: map<M.Sku, int>, m: M.Market) {
    M.Conserved(m, seeded) && JournalOk(m) && forall key <- m.journal :: key.sessionKey != shop.cfg.key
  }

  function Start(m: M.Market): World { World(INITIAL, m, map[], []) }

  lemma {:induction false} RunWorldKeeps(shop: Shop, seeded: map<M.Sku, int>, w: World, events: seq<Event>)
    requires WorldInv(shop, seeded, w) && Possible(shop, w, events)
    ensures WorldInv(shop, seeded, RunWorld(shop, w, events))
    decreases |events|
  {
    if events != [] {
      EventKeeps(shop, seeded, w, events[0]);
      RunWorldKeeps(shop, seeded, Happen(shop, w, events[0]), events[1..]);
    }
  }

  lemma ReachedOk(shop: Shop, seeded: map<M.Sku, int>, m: M.Market, events: seq<Event>)
    requires Opening(shop, seeded, m) && Possible(shop, Start(m), events)
    ensures WorldInv(shop, seeded, RunWorld(shop, Start(m), events))
  {
    assert WorldInv(shop, seeded, Start(m));
    RunWorldKeeps(shop, seeded, Start(m), events);
  }

  /**
    At most once, over every run with crashes, take-overs, late effects, lapsed records and other customers:
    two orders that keyed transactions brought into the market under one key are one order, and it is the one
    the journal names; and nothing of the stock is lost.
   */
  lemma OneOrderPerKey(shop: Shop, seeded: map<M.Sku, int>, m: M.Market, events: seq<Event>, a: nat, b: nat)
    requires Opening(shop, seeded, m) && Possible(shop, Start(m), events)
    requires a < |RunWorld(shop, Start(m), events).created| && b < |RunWorld(shop, Start(m), events).created|
    ensures var w := RunWorld(shop, Start(m), events);
      && (w.created[a].key == w.created[b].key ==> a == b)
      && w.created[a].id in w.market.orders
      && w.created[a].key in w.market.journal
      && w.market.journal[w.created[a].key] == M.PlaceEntry(M.Created(w.created[a].id))
      && M.Conserved(w.market, seeded)
  {
    ReachedOk(shop, seeded, m, events);
    var w := RunWorld(shop, Start(m), events);
    assert JournalOk(w.market) && w.created[a].key in w.market.journal;
    hide Possible, RunWorld, Inv, EffectOk, EntriesOk, StageOk, Authored;
    if a != b {
      var i, j := if a < b then a else b, if a < b then b else a;
      assert w.created[i].key != w.created[j].key;
    }
  }

  /**
    Every committed answer of a checkout or a withdrawal, whether the handler's or a recovery's, reports the
    result the journal holds under the turn's key. Read as text, an answer that ends a checkout names exactly the
    journalled order, which exists, and one that reports a withdrawal names the order that was viewed.
   */
  lemma CommittedAnswersAreReal(shop: Shop, seeded: map<M.Sku, int>, m: M.Market, events: seq<Event>, life: nat, i: nat)
    requires Opening(shop, seeded, m) && Possible(shop, Start(m), events)
    requires var w := RunWorld(shop, Start(m), events); life < |w.sys.lives| && i < |w.sys.lives[life].entries|
    ensures var w := RunWorld(shop, Start(m), events);
      var e := w.sys.lives[life].entries[i];
      && JournalOk(w.market)
      && Reported(w.market, e.before, e.receipt.fingerprint, e.receipt.response, Claimed(w, e.token, e.kind))
      && Acted(w, e.token, e.kind, e.before, e.receipt.fingerprint)
      && NamesItsOrder(w.market, e.before, e.receipt.fingerprint, e.receipt.response)
  {
    ReachedOk(shop, seeded, m, events);
    var w := RunWorld(shop, Start(m), events);
    var e := w.sys.lives[life].entries[i];
    assert EntryReported(w, e);
    hide WorldInv, Possible, RunWorld, Inv, Reported, NamesItsOrder;
    ReportedNames(w.market, e.before, e.receipt.fingerprint, e.receipt.response, Claimed(w, e.token, e.kind));
  }

  /** The order that the text of an answer names is the one its turn journalled, or viewed. */
  ghost predicate NamesItsOrder(m: M.Market, before: Option<Session>, key: M.Key, response: Response) {
    match ActionOf(before, key)
    case Other => true
    case Checkout => IsEnd(response) ==>
      && key in m.journal && m.journal[key].PlaceEntry? && !m.journal[key].place.OutOfStock?
      && m.journal[key].place.id in m.orders && Named(response) == Some(m.journal[key].place.id)
    case Withdraw =>
      key in m.journal && m.journal[key] == M.CancelEntry(M.CancelResult.Cancel) && ViewedOrder(before.value).Some? && response != NOT_FOUND ==>
        Named(response) == Some(ViewedOrder(before.value).value)
  }

  lemma ReportedNames(m: M.Market, before: Option<Session>, key: M.Key, response: Response, claimed: Option<int>)
    requires JournalOk(m) && Reported(m, before, key, response, claimed)
    ensures NamesItsOrder(m, before, key, response)
  {
    hide Named, PlacedText, CancelledText, WithdrawnText, JournalOk;
    match ActionOf(before, key)
    case Other =>
    case Checkout =>
      var place := m.journal[key].place;
      if !place.OutOfStock? {
        var total := if place.Created? && claimed.Some? then claimed.value else m.orders[place.id].total;
        PlacedReads(place.id, total, TextAt(before.value, "pickup"));
        CancellationsRead(place.id);
      }
    case Withdraw =>
      if ViewedOrder(before.value).Some? { CancellationsRead(ViewedOrder(before.value).value); }
  }

  /** In particular a checkout answered with END names an order that exists, by one of two texts. */
  lemma EndedCheckoutHasOrder(m: M.Market, before: Option<Session>, key: M.Key, response: Response, claimed: Option<int>)
    requires JournalOk(m) && Reported(m, before, key, response, claimed)
    requires ActionOf(before, key).Checkout? && IsEnd(response)
    ensures key in m.journal && m.journal[key].PlaceEntry? && !m.journal[key].place.OutOfStock?
    ensures var id := m.journal[key].place.id;
      && id in m.orders && Named(response) == Some(id)
      && (response == CancelledText(id) || exists total :: response == PlacedText(id, total, TextAt(before.value, "pickup")))
  {
    hide Named, PlacedText, CancelledText;
    ReportedNames(m, before, key, response, claimed);
  }

  // ---- the total an answer states ----

  /**
    When a committed answer to a created order states that order's stored total, over all lifetimes of the
    record: a recovery's always does; a handler's does if and only if the total it added up itself is the stored
    one, which is so whenever it found its key unused, and so in the first lifetime.
   */
  lemma ExactTotals(shop: Shop, seeded: map<M.Sku, int>, m: M.Market, events: seq<Event>, life: nat, i: nat, order: M.OrderId)
    requires Opening(shop, seeded, m) && Possible(shop, Start(m), events)
    requires var w := RunWorld(shop, Start(m), events); life < |w.sys.lives| && i < |w.sys.lives[life].entries|
    requires var w := RunWorld(shop, Start(m), events);
      var e := w.sys.lives[life].entries[i];
      && ActionOf(e.before, e.receipt.fingerprint).Checkout?
      && e.receipt.fingerprint in w.market.journal && w.market.journal[e.receipt.fingerprint] == M.PlaceEntry(M.Created(order))
    ensures var w := RunWorld(shop, Start(m), events);
      var e := w.sys.lives[life].entries[i];
      && order in w.market.orders
      && (e.kind.Normal? ==> e.token in w.effects && w.effects[e.token].PlaceEffect?)
      && Named(e.receipt.response) == Some(order)
      && (Stated(e.receipt.response) == Some(w.market.orders[order].total)
          <==> e.kind.Recovery? || w.effects[e.token].total == w.market.orders[order].total)
      && (e.kind.Normal? && w.effects[e.token].unused ==> w.effects[e.token].total == w.market.orders[order].total)
      && (e.kind.Normal? && |w.sys.lives| == 1 ==> w.effects[e.token].unused)
  {
    ReachedOk(shop, seeded, m, events);
    var w := RunWorld(shop, Start(m), events);
    var e := w.sys.lives[life].entries[i];
    assert EntryReported(w, e);
    assert forall j <- w.effects :: EffectOk(w, j);
    hide WorldInv, PlacedText;
    hide Possible, RunWorld, Inv, M.Conserved, JournalOk, Authored, CreatedOk, StageOk, EntriesOk;
    hide Named, Stated;
    PlacedReads(order, w.market.orders[order].total, TextAt(e.before.value, "pickup"));
    if e.kind.Normal? {
      PlacedReads(order, w.effects[e.token].total, TextAt(e.before.value, "pickup"));
      assert EffectOk(w, e.token);
    }
  }

  /** The order exists, belongs to the caller, and is the one the answer names. */
  ghost predicate NamesOwn(m: M.Market, phone: string, id: M.OrderId, answer: Response) {
    id in m.orders && m.orders[id].phone == phone && Named(answer) == Some(id) && IsEnd(answer)
  }

  /** An order found again, by the handler or by a recovery, is answered for only to the phone it was placed from. */
  lemma OwnOrdersOnly(m: M.Market, session: Session, key: M.Key, phone: string, effect: Effect, screen: Response)
    ensures var answer := HandlerAnswer(m, session, phone, effect, screen);
      && (effect.NoOrder? ==> answer == Some("END Order not found"))
      && (effect.PlaceEffect? && effect.place.Some? && effect.place.value.Existing? && answer.Some? ==>
            NamesOwn(m, phone, effect.place.value.id, answer.value))
    ensures var answer := RecoveredAnswer(m, Some(session), key);
      session.state == Some("CONFIRM") && answer.Some? ==>
        && key in m.journal && m.journal[key].PlaceEntry? && !m.journal[key].place.OutOfStock?
        && NamesOwn(m, TextAt(session, "phone"), m.journal[key].place.id, answer.value)
  {
    if effect.PlaceEffect? && effect.place.Some? && effect.place.value.Existing? {
      NamedTexts(m, effect.place.value.id, TextAt(session, "pickup"));
    }
    if key in m.journal && m.journal[key].PlaceEntry? && !m.journal[key].place.OutOfStock? {
      NamedTexts(m, m.journal[key].place.id, TextAt(session, "pickup"));
    }
    hide PlacedText, CancelledText, Named, IsEnd;
  }

  lemma NamedTexts(m: M.Market, id: M.OrderId, pickup: string)
    ensures Named(CancelledText(id)) == Some(id) && IsEnd(CancelledText(id))
    ensures forall total :: Named(PlacedText(id, total, pickup)) == Some(id) && IsEnd(PlacedText(id, total, pickup))
  {
    CancellationsRead(id);
    forall total
      ensures Named(PlacedText(id, total, pickup)) == Some(id) && IsEnd(PlacedText(id, total, pickup))
    {
      PlacedReads(id, total, pickup);
    }
  }

  ghost predicate EndsWith(text: string, end: string) { |end| <= |text| && text[|text| - |end|..] == end }

  ghost predicate IsConfirmation(answer: Response, pickup: string) { exists id: nat, total :: answer == PlacedText(id, total, pickup) }

  ghost predicate IsOther(session: Session, answer: Response) {
    || "CON " <= answer || answer in {NOT_FOUND, NOT_CANCELLED}
    || (exists id: nat :: answer == CancelledText(id)) || (exists result :: answer == WithdrawalText(session, result))
  }

  lemma AnswerForms(m: M.Market, session: Session, key: M.Key, phone: string, effect: Effect, screen: Response, answer: Response)
    requires HandlerAnswer(m, session, phone, effect, screen) == Some(answer) || RecoveredAnswer(m, Some(session), key) == Some(answer)
    ensures IsConfirmation(answer, TextAt(session, "pickup")) || IsOther(session, answer)
  {
    hide PlacedText, CancelledText, WithdrawalText, TextAt;
  }

  /** Whatever answer states a total also states the session's own pickup point. */
  lemma StatesPickup(m: M.Market, session: Session, key: M.Key, phone: string, effect: Effect, screen: Response, answer: Response)
    requires HandlerAnswer(m, session, phone, effect, screen) == Some(answer) || RecoveredAnswer(m, Some(session), key) == Some(answer)
    requires Stated(answer).Some? && "pickup" in session.data && session.data["pickup"].JText?
    ensures EndsWith(answer, ". Pickup: " + session.data["pickup"].text + ". Demo only.")
  {
    var pickup := session.data["pickup"].text;
    assert pickup == TextAt(session, "pickup");
    hide HandlerAnswer, RecoveredAnswer, PlacedText, TextAt, Stated, IsOther;
    AnswerForms(m, session, key, phone, effect, screen, answer);
    if IsOther(session, answer) {
      NoTotal(session, answer);
    } else {
      var id: nat, total :| answer == PlacedText(id, total, pickup);
      PlacedReads(id, total, pickup);
      PickupEnds(answer, pickup);
    }
  }

  lemma PickupEnds(answer: Response, pickup: string)
    requires EndsWith(answer, Ending(pickup))
    ensures EndsWith(answer, ". Pickup: " + pickup + ". Demo only.")
  {
  }

  /** The other answers state none. */
  lemma NoTotal(session: Session, answer: Response)
    requires IsOther(session, answer)
    ensures Stated(answer).None?
  {
    if id: nat :| answer == CancelledText(id) {
      CancellationsRead(id);
    } else if result :| answer == WithdrawalText(session, result) {
      WithdrawalHasNone(session, result);
    } else {
      assert NOT_FOUND[|HEAD|] == 'n' && NOT_CANCELLED[|HEAD|] == 'c';
      assert "CON "[0] == 'C' && HEAD[0] == 'E';
    }
  }

  lemma WithdrawalHasNone(session: Session, result: M.CancelResult)
    ensures Stated(WithdrawalText(session, result)).None?
  {
    assert NOT_CANCELLED[|HEAD|] == 'c' && (HEAD + "undefined" + CANCELLED)[|HEAD|] == 'u';
    if ViewedOrder(session).Some? { CancellationsRead(ViewedOrder(session).value); }
    hide WithdrawnText;
  }

  /** A withdrawal touches the market only for an order of the caller's own phone. */
  lemma WithdrawsOwn(shop: Shop, w: World, id: Token, items: seq<M.Item>, total: int)
    requires IsWorking(w, id, Normal) && ActionAt(w, id).Withdraw?
    ensures var w' := ApplyPerform(shop, w, id, items, total);
      var viewed := ViewedOrder(w.sys.requests[id].stage.session.value);
      && id in w'.effects
      && (w'.effects[id] != NoOrder
          <==> viewed.Some? && viewed.value in w.market.orders
               && w.market.orders[viewed.value].phone == shop.normalise(w.sys.requests[id].turn.binding.phoneNumber))
      && (w'.effects[id] == NoOrder ==> w'.market == w.market)
      && forall k <- w.market.orders :: k in w'.market.orders && (viewed != Some(k) ==> w'.market.orders[k] == w.market.orders[k])
  {
  }

  /** Original and recovery cannot disagree: over one journal both give the same text for the same turn. */
  lemma RecoveryMatchesHandler(m: M.Market, session: Session, key: M.Key, phone: string, effect: Effect, screen: Response)
    requires session.state == Some("CONFIRM") && TextAt(session, "phone") == phone
    requires key in m.journal && effect.PlaceEffect? && effect.place.Some? && m.journal[key] == M.PlaceEntry(effect.place.value)
    requires effect.place.value.Created? ==> GetOrder(m, effect.place.value.id, phone).Some? && m.orders[effect.place.value.id].total == effect.total
    ensures RecoveredAnswer(m, Some(session), key).Some? ==>
      HandlerAnswer(m, session, phone, effect, screen) == RecoveredAnswer(m, Some(session), key)
    ensures RecoveredAnswer(m, Some(session), key).None? <==>
      effect.place.value.OutOfStock? || HandlerAnswer(m, session, phone, effect, screen).None?
  {
  }

  /** Nor over a withdrawal: once it is journalled a recovery always answers, and as the handler does. */
  lemma WithdrawalRecoveryMatchesHandler(m: M.Market, session: Session, key: M.Key, phone: string, effect: Effect, screen: Response)
    requires session.state == Some("ORDER_DETAIL") && key in m.journal && effect.WithdrawEffect?
    requires if effect.withdraw.Some? then m.journal[key] == M.CancelEntry(effect.withdraw.value) else m.journal[key].PlaceEntry?
    ensures RecoveredAnswer(m, Some(session), key).Some?
    ensures RecoveredAnswer(m, Some(session), key) == HandlerAnswer(m, session, phone, effect, screen)
  {
  }
}
