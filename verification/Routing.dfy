/**
 * Semantic routing: what a provider proposal may become, how the projected context may rewrite it,
 * and the evaluation check that an expected route is one the router can produce.
 */
module Routing {
  import opened Results

  // ---------------------------------------------------------------- requests and decisions

  datatype Capability =
    | ANSWER_QUESTION | CONVERSE | SEARCH_CATALOG | VERIFY_ORDER_STATUS | READ_ORDER_TOTAL | LIST_ORDERS
    | VIEW_CART | MODIFY_CART | PLACE_ORDER | CANCEL_ORDERS | REFUND_ORDER | RETURN_ORDER | CHANGE_PROFILE
    | VERIFY_IDENTITY | SWITCH_ACCOUNT | VIEW_IDENTITY_STATUS | ABORT_CURRENT | DISCLOSE_AI_IDENTITY
    | REQUEST_PERSON

  datatype AnswerTopic = Policy | General
  datatype ConversationAct =
    | Greeting | Acknowledgment | Farewell | InviteRequest | CapabilitySummary | ChannelCheck | Repair
  datatype ListScope = SessionOrders | AccountOrders
  datatype CartOperation = Add | Remove | SetQuantity
  datatype ProfileField = Address | Contact
  datatype StatusSelector = StatusExplicit | StatusFocused | StatusRecent
  datatype TotalSelector = TotalExplicit | TotalFocused
  datatype CancelSelector = CancelExplicit | CancelFocused

  /** An order selection inside a request. */
  datatype Target = ExplicitSet(refs: seq<string>) | Focused | Recent | CancellableScope(both: bool)
  datatype CartItem = ItemQuery(query: string) | ItemChoices(skus: seq<string>) | ItemResolved(sku: string)

  datatype Request =
    | AnswerQuestion(topic: AnswerTopic)
    | Converse(act: ConversationAct)
    | SearchCatalog(query: Option<string>)
    | VerifyOrderStatus(statusTarget: Option<Target>)
    | ReadOrderTotal(totalTarget: Option<Target>)
    | ListOrders(scope: ListScope)
    | ViewCart
    | ModifyCart(operation: CartOperation, item: Option<CartItem>, quantity: Option<nat>)
    | PlaceOrder
    | CancelOrders(cancelTarget: Option<Target>)
    | RefundOrder(refundTarget: Option<Target>, amount: Option<nat>, destination: Option<string>)
    | ReturnOrder(returnTarget: Option<Target>)
    | ChangeProfile(field: ProfileField, newValue: Option<string>)
    | VerifyIdentity
    | SwitchAccount
    | ViewIdentityStatus
    | AbortCurrent
    | DiscloseAiIdentity
    | RequestPerson

  function Kind(r: Request): Capability {
    match r
    case AnswerQuestion(_) => ANSWER_QUESTION
    case Converse(_) => CONVERSE
    case SearchCatalog(_) => SEARCH_CATALOG
    case VerifyOrderStatus(_) => VERIFY_ORDER_STATUS
    case ReadOrderTotal(_) => READ_ORDER_TOTAL
    case ListOrders(_) => LIST_ORDERS
    case ViewCart => VIEW_CART
    case ModifyCart(_, _, _) => MODIFY_CART
    case PlaceOrder => PLACE_ORDER
    case CancelOrders(_) => CANCEL_ORDERS
    case RefundOrder(_, _, _) => REFUND_ORDER
    case ReturnOrder(_) => RETURN_ORDER
    case ChangeProfile(_, _) => CHANGE_PROFILE
    case VerifyIdentity => VERIFY_IDENTITY
    case SwitchAccount => SWITCH_ACCOUNT
    case ViewIdentityStatus => VIEW_IDENTITY_STATUS
    case AbortCurrent => ABORT_CURRENT
    case DiscloseAiIdentity => DISCLOSE_AI_IDENTITY
    case RequestPerson => REQUEST_PERSON
  }

  datatype Reason = AmbiguousIntent | MissingTarget | MissingValue | UnsupportedWorkflow | UnsupportedCapability

  datatype Failure = InvalidOutput | RoutingUnavailable | ContextInvalid | DecisionRejected

  /** A route decision, or the routing failure that stands in its place. */
  datatype Resolution = Clarify(reason: Reason) | Direct(request: Request) | Continue | Failed(failure: Failure)

  datatype Scope = Ordinary | ConfirmationEscape

  datatype Context = Context(
    scope: Scope,
    active: Option<Capability>,
    recentOrders: nat,
    hasFocused: bool,
    available: seq<Capability>)

  ghost predicate Coherent(c: Context) {
    c.active.Some? ==> c.active.value in c.available
  }

  // ---------------------------------------------------------------- the context's veto

  function IsFocused(t: Option<Target>): bool {
    t == Some(Focused)
  }

  /** An order read aimed at a focus or a recent set that is not there. */
  predicate DeadReadTarget(c: Context, t: Option<Target>) {
    || ((t == Some(Focused) || t == Some(Recent)) && c.recentOrders == 0)
    || (t == Some(Focused) && !c.hasFocused)
  }

  function ResolveDirect(c: Context, r: Request): Resolution {
    if Kind(r) !in c.available then Clarify(UnsupportedCapability)
    else if r.VerifyOrderStatus? && DeadReadTarget(c, r.statusTarget) then Direct(VerifyOrderStatus(None))
    else if r.ReadOrderTotal? && DeadReadTarget(c, r.totalTarget) then Direct(ReadOrderTotal(None))
    else if r.CancelOrders? && r.cancelTarget == Some(Focused) && !c.hasFocused then Direct(CancelOrders(None))
    else Direct(r)
  }

  /** `resolve_route`: reject or downgrade a decision the context cannot execute. */
  function Resolve(c: Context, d: Resolution): Resolution
    requires !d.Failed?
  {
    if c.scope == ConfirmationEscape then
      if d == Direct(RequestPerson) && REQUEST_PERSON in c.available then d else Clarify(AmbiguousIntent)
    else if d.Continue? then
      if c.active.None? then Failed(DecisionRejected) else d
    else if d.Direct? then ResolveDirect(c, d.request)
    else d
  }

  // ---------------------------------------------------------------- proposals

  datatype Decision = ProposeClarify | ProposeDirect | ProposeContinue

  datatype Discriminator =
    | D_ANSWER_TOPIC | D_CONVERSATION_ACT | D_CANCEL_SELECTOR | D_LIST_SCOPE
    | D_CART_OPERATION | D_PROFILE_FIELD | D_STATUS_SELECTOR | D_TOTAL_SELECTOR

  /** The optional discriminator fields of a proposal. */
  datatype Fields = Fields(
    answerTopic: Option<AnswerTopic>,
    conversationAct: Option<ConversationAct>,
    cancelSelector: Option<CancelSelector>,
    listScope: Option<ListScope>,
    cartOperation: Option<CartOperation>,
    profileField: Option<ProfileField>,
    statusSelector: Option<StatusSelector>,
    totalSelector: Option<TotalSelector>)

  const NO_FIELDS := Fields(None, None, None, None, None, None, None, None)

  datatype Proposal = Proposal(
    decision: Decision,
    capability: Option<Capability>,
    reason: Option<Reason>,
    fields: Fields)

  predicate Supplies(f: Fields, d: Discriminator) {
    match d
    case D_ANSWER_TOPIC => f.answerTopic.Some?
    case D_CONVERSATION_ACT => f.conversationAct.Some?
    case D_CANCEL_SELECTOR => f.cancelSelector.Some?
    case D_LIST_SCOPE => f.listScope.Some?
    case D_CART_OPERATION => f.cartOperation.Some?
    case D_PROFILE_FIELD => f.profileField.Some?
    case D_STATUS_SELECTOR => f.statusSelector.Some?
    case D_TOTAL_SELECTOR => f.totalSelector.Some?
  }

  /** The discriminators a capability's definition requires. */
  predicate Requires(k: Capability, d: Discriminator) {
    match d
    case D_ANSWER_TOPIC => k == ANSWER_QUESTION
    case D_CONVERSATION_ACT => k == CONVERSE
    case D_CANCEL_SELECTOR => k == CANCEL_ORDERS
    case D_LIST_SCOPE => k == LIST_ORDERS
    case D_CART_OPERATION => k == MODIFY_CART
    case D_PROFILE_FIELD => k == CHANGE_PROFILE
    case D_STATUS_SELECTOR => k == VERIFY_ORDER_STATUS
    case D_TOTAL_SELECTOR => k == READ_ORDER_TOTAL
  }

  predicate SuppliesNothing(f: Fields) {
    forall d: Discriminator :: !Supplies(f, d)
  }

  predicate SuppliesExactly(f: Fields, k: Capability) {
    forall d: Discriminator :: Supplies(f, d) <==> Requires(k, d)
  }

  /** A definition's `materialize`; None where it raises. */
  function Materialize(k: Capability, f: Fields): Option<Request> {
    match k
    case ANSWER_QUESTION => if f.answerTopic.None? then None else Some(AnswerQuestion(f.answerTopic.value))
    case CONVERSE => if f.conversationAct.None? then None else Some(Converse(f.conversationAct.value))
    case CANCEL_ORDERS =>
      if f.cancelSelector.None? then None
      else Some(CancelOrders(if f.cancelSelector.value.CancelFocused? then Some(Focused) else None))
    case LIST_ORDERS => if f.listScope.None? then None else Some(ListOrders(f.listScope.value))
    case MODIFY_CART => if f.cartOperation.None? then None else Some(ModifyCart(f.cartOperation.value, None, None))
    case CHANGE_PROFILE => if f.profileField.None? then None else Some(ChangeProfile(f.profileField.value, None))
    case VERIFY_ORDER_STATUS =>
      if f.statusSelector.None? then None
      else Some(VerifyOrderStatus(match f.statusSelector.value
                                  case StatusExplicit => None
                                  case StatusFocused => Some(Focused)
                                  case StatusRecent => Some(Recent)))
    case READ_ORDER_TOTAL =>
      if f.totalSelector.None? then None
      else Some(ReadOrderTotal(if f.totalSelector.value.TotalFocused? then Some(Focused) else None))
    case SEARCH_CATALOG => Some(SearchCatalog(None))
    case VIEW_CART => Some(ViewCart)
    case PLACE_ORDER => Some(PlaceOrder)
    case REFUND_ORDER => Some(RefundOrder(None, None, None))
    case RETURN_ORDER => Some(ReturnOrder(None))
    case VERIFY_IDENTITY => Some(VerifyIdentity)
    case SWITCH_ACCOUNT => Some(SwitchAccount)
    case VIEW_IDENTITY_STATUS => Some(ViewIdentityStatus)
    case ABORT_CURRENT => Some(AbortCurrent)
    case DISCLOSE_AI_IDENTITY => Some(DiscloseAiIdentity)
    case REQUEST_PERSON => Some(RequestPerson)
  }

  function ProposedDirect(p: Proposal): Resolution {
    if p.capability.None? || p.reason.Some? then Failed(DecisionRejected)
    else if !SuppliesExactly(p.fields, p.capability.value) then Failed(DecisionRejected)
    else
      var r := Materialize(p.capability.value, p.fields);
      if r.None? then Failed(DecisionRejected) else Direct(r.value)
  }

  /** `proposed_route_decision`: the model's own decision, before the context may adjust it. */
  function Proposed(c: Context, p: Proposal): Resolution {
    match p.decision
    case ProposeClarify =>
      if p.capability.Some? || p.reason.None? || !SuppliesNothing(p.fields) then Failed(DecisionRejected)
      else Clarify(p.reason.value)
    case ProposeContinue =>
      if p.capability.Some? || p.reason.Some? || !SuppliesNothing(p.fields) || c.active.None? then Failed(DecisionRejected)
      else Continue
    case ProposeDirect => ProposedDirect(p)
  }

  /** `materialize_route`. */
  function MaterializeRoute(c: Context, p: Proposal): Resolution {
    var d := Proposed(c, p);
    if d.Failed? then d else Resolve(c, d)
  }

  // ---------------------------------------------------------------- signatures and ground truth

  /** The discriminator part of `_route_signature` for a direct request. */
  function SignatureFields(r: Request): Fields {
    match r
    case AnswerQuestion(t) => NO_FIELDS.(answerTopic := Some(t))
    case Converse(a) => NO_FIELDS.(conversationAct := Some(a))
    case CancelOrders(t) => NO_FIELDS.(cancelSelector := Some(if IsFocused(t) then CancelFocused else CancelExplicit))
    case ListOrders(s) => NO_FIELDS.(listScope := Some(s))
    case ModifyCart(o, _, _) => NO_FIELDS.(cartOperation := Some(o))
    case ChangeProfile(f, _) => NO_FIELDS.(profileField := Some(f))
    case VerifyOrderStatus(t) =>
      NO_FIELDS.(statusSelector := Some(if t == Some(Focused) then StatusFocused
                                        else if t == Some(Recent) then StatusRecent
                                        else StatusExplicit))
    case ReadOrderTotal(t) => NO_FIELDS.(totalSelector := Some(if IsFocused(t) then TotalFocused else TotalExplicit))
    case SearchCatalog(_) => NO_FIELDS
    case ViewCart => NO_FIELDS
    case PlaceOrder => NO_FIELDS
    case RefundOrder(_, _, _) => NO_FIELDS
    case ReturnOrder(_) => NO_FIELDS
    case VerifyIdentity => NO_FIELDS
    case SwitchAccount => NO_FIELDS
    case ViewIdentityStatus => NO_FIELDS
    case AbortCurrent => NO_FIELDS
    case DiscloseAiIdentity => NO_FIELDS
    case RequestPerson => NO_FIELDS
  }

  /** The proposal rebuilt from a direct expectation's signature. */
  function SignatureProposal(r: Request): Proposal {
    Proposal(ProposeDirect, Some(Kind(r)), None, SignatureFields(r))
  }

  /** `_require_producible_ground_truth`: whether the expectation passes. */
  predicate ProducibleCheck(c: Context, expected: Resolution) {
    expected.Direct? ==> MaterializeRoute(c, SignatureProposal(expected.request)) == expected
  }

  // ---------------------------------------------------------------- laws of resolution

  /** Resolving twice changes nothing more than resolving once. */
  lemma ResolveIdempotent(c: Context, d: Resolution)
    requires !d.Failed? && !Resolve(c, d).Failed?
    ensures Resolve(c, Resolve(c, d)) == Resolve(c, d)
  {
  }

  /** The session's own resolve never changes what the recognizer already materialised. */
  lemma SessionResolveIsIdentity(c: Context, p: Proposal)
    requires !MaterializeRoute(c, p).Failed?
    ensures Resolve(c, MaterializeRoute(c, p)) == MaterializeRoute(c, p)
  {
  }

  /** The capability a decision hands the turn to, if any. */
  function Owner(c: Context, d: Resolution): Option<Capability> {
    if d.Direct? then Some(Kind(d.request)) else if d.Continue? then c.active else None
  }

  ghost predicate TargetIsLive(c: Context, t: Option<Target>) {
    (t == Some(Recent) ==> c.recentOrders > 0) && (t == Some(Focused) ==> c.recentOrders > 0 && c.hasFocused)
  }

  /**
   * Whatever survives names an available capability, aims no order read or cancellation at a focus
   * or recent set that is not there, and out of a confirmation can only ask for a person.
   */
  lemma SurvivorsAreExecutable(c: Context, d: Resolution)
    requires Coherent(c) && !d.Failed?
    ensures var out := Resolve(c, d);
            && (Owner(c, out).Some? ==> Owner(c, out).value in c.available)
            && (out.Continue? ==> c.active.Some?)
            && (out.Direct? && out.request.VerifyOrderStatus? ==> TargetIsLive(c, out.request.statusTarget))
            && (out.Direct? && out.request.ReadOrderTotal? ==> TargetIsLive(c, out.request.totalTarget))
            && (out.Direct? && out.request.CancelOrders? && out.request.cancelTarget == Some(Focused) ==> c.hasFocused)
            && (c.scope == ConfirmationEscape ==> out == Direct(RequestPerson) || out == Clarify(AmbiguousIntent))
  {
  }

  /** A route is kept exactly when the context can execute it: the veto is never wider than that. */
  lemma KeptIffExecutable(c: Context, d: Resolution)
    requires !d.Failed? && c.scope == Ordinary
    ensures Resolve(c, d) == d <==>
            && (d.Continue? ==> c.active.Some?)
            && (d.Direct? ==>
                  && Kind(d.request) in c.available
                  && (d.request.VerifyOrderStatus? ==> TargetIsLive(c, d.request.statusTarget))
                  && (d.request.ReadOrderTotal? ==> TargetIsLive(c, d.request.totalTarget))
                  && (d.request.CancelOrders? && d.request.cancelTarget == Some(Focused) ==> c.hasFocused))
  {
  }

  /** The request with its order target taken away. */
  function Untargeted(r: Request): Request {
    match r
    case VerifyOrderStatus(_) => VerifyOrderStatus(None)
    case ReadOrderTotal(_) => ReadOrderTotal(None)
    case CancelOrders(_) => CancelOrders(None)
    case _ => r
  }

  /** Resolution never moves a turn to another capability: it keeps, drops a target, asks back or rejects. */
  lemma ResolveOnlyWeakens(c: Context, d: Resolution)
    requires !d.Failed?
    ensures var out := Resolve(c, d);
            || out == d
            || (d.Direct? && out == Direct(Untargeted(d.request)))
            || out == Clarify(AmbiguousIntent)
            || out == Clarify(UnsupportedCapability)
            || out == Failed(DecisionRejected)
  {
  }

  // ---------------------------------------------------------------- laws of ground truth

  /** Requests a proposal can spell: no fine slot is filled, and a total is never asked of the recent set. */
  predicate Coarse(r: Request) {
    match r
    case SearchCatalog(q) => q.None?
    case VerifyOrderStatus(t) => t.None? || t.value.Focused? || t.value.Recent?
    case ReadOrderTotal(t) => t.None? || t.value.Focused?
    case ModifyCart(_, item, quantity) => item.None? && quantity.None?
    case CancelOrders(t) => t.None? || t.value.Focused?
    case RefundOrder(t, a, d) => t.None? && a.None? && d.None?
    case ReturnOrder(t) => t.None?
    case ChangeProfile(_, v) => v.None?
    case AnswerQuestion(_) => true
    case Converse(_) => true
    case ListOrders(_) => true
    case ViewCart => true
    case PlaceOrder => true
    case VerifyIdentity => true
    case SwitchAccount => true
    case ViewIdentityStatus => true
    case AbortCurrent => true
    case DiscloseAiIdentity => true
    case RequestPerson => true
  }

  /** The rebuilt proposal always supplies exactly what its capability requires. */
  lemma SignatureIsWellFormed(r: Request)
    ensures SuppliesExactly(SignatureFields(r), Kind(r))
    ensures Materialize(Kind(r), SignatureFields(r)).Some?
  {
  }

  /** Signature and proposal are inverse exactly on the coarse requests. */
  lemma SignatureRoundTrip(c: Context, r: Request)
    ensures Proposed(c, SignatureProposal(r)) == Direct(r) <==> Coarse(r)
  {
    SignatureIsWellFormed(r);
  }

  /** Whatever a well-formed proposal materialises to is coarse and of the proposed capability. */
  lemma MaterializedIsCoarse(k: Capability, f: Fields)
    requires Materialize(k, f).Some?
    ensures Coarse(Materialize(k, f).value) && Kind(Materialize(k, f).value) == k
  {
  }

  lemma ResolvedIsCoarse(c: Context, r: Request)
    requires Coarse(r) && Resolve(c, Direct(r)).Direct?
    ensures Coarse(Resolve(c, Direct(r)).request)
  {
  }

  /**
   * The ground-truth check is exact: a direct expectation passes if and only if some proposal, among
   * all of them, materialises to it in that context.
   */
  lemma CheckIsExact(c: Context, r: Request)
    ensures ProducibleCheck(c, Direct(r)) <==> exists p :: MaterializeRoute(c, p) == Direct(r)
  {
    if p :| MaterializeRoute(c, p) == Direct(r) {
      ProducibleIsFixedPoint(c, p, r);
      PassesIff(c, r);
    }
  }

  /** What a proposal produces is coarse and already a fixed point of resolution. */
  lemma ProducibleIsFixedPoint(c: Context, p: Proposal, r: Request)
    requires MaterializeRoute(c, p) == Direct(r)
    ensures Coarse(r) && Resolve(c, Direct(r)) == Direct(r)
  {
    var d := Proposed(c, p);
    assert p.decision == ProposeDirect && d.Direct?;
    MaterializedIsCoarse(p.capability.value, p.fields);
    ResolvedIsCoarse(c, d.request);
    ResolveIdempotent(c, d);
  }

  /** The check in terms a corpus author can read off the expectation itself. */
  lemma PassesIff(c: Context, r: Request)
    ensures ProducibleCheck(c, Direct(r)) <==> Coarse(r) && Resolve(c, Direct(r)) == Direct(r)
  {
    SignatureRoundTrip(c, r);
    if ProducibleCheck(c, Direct(r)) {
      ProducibleIsFixedPoint(c, SignatureProposal(r), r);
    }
  }

  /** Producible expectations are told apart by their signatures. */
  lemma SignatureInjective(c: Context, r: Request, s: Request)
    requires ProducibleCheck(c, Direct(r)) && ProducibleCheck(c, Direct(s))
    requires SignatureProposal(r) == SignatureProposal(s)
    ensures r == s
  {
  }

  /** A total read over the recent orders is a valid decision that no proposal can ever produce. */
  lemma RecentTotalIsNeverProducible(c: Context, p: Proposal)
    ensures MaterializeRoute(c, p) != Direct(ReadOrderTotal(Some(Recent)))
  {
  }

  // ---------------------------------------------------------------- which proposals are accepted

  /** A proposal yields a decision exactly when its fields fit its decision. */
  lemma ProposalAcceptedIff(c: Context, p: Proposal)
    ensures !Proposed(c, p).Failed? <==>
            match p.decision
            case ProposeClarify => p.capability.None? && p.reason.Some? && p.fields == NO_FIELDS
            case ProposeContinue => p.capability.None? && p.reason.None? && p.fields == NO_FIELDS && c.active.Some?
            case ProposeDirect =>
              p.capability.Some? && p.reason.None?
              && exists r :: Coarse(r) && Kind(r) == p.capability.value && SignatureFields(r) == p.fields
  {
    FieldsFitIff(p);
    assert SuppliesNothing(p.fields) <==> p.fields == NO_FIELDS by {
      NothingIsNoFields(p.fields);
    }
  }

  lemma NothingIsNoFields(f: Fields)
    ensures SuppliesNothing(f) <==> f == NO_FIELDS
  {
    if SuppliesNothing(f) {
      assert !Supplies(f, D_ANSWER_TOPIC) && !Supplies(f, D_CONVERSATION_ACT) && !Supplies(f, D_CANCEL_SELECTOR);
      assert !Supplies(f, D_LIST_SCOPE) && !Supplies(f, D_CART_OPERATION) && !Supplies(f, D_PROFILE_FIELD);
      assert !Supplies(f, D_STATUS_SELECTOR) && !Supplies(f, D_TOTAL_SELECTOR);
    }
  }

  /** Well-formed direct proposals are exactly the signatures of the coarse requests. */
  lemma FieldsFitIff(p: Proposal)
    ensures ProposedDirect(p).Direct? <==>
            p.capability.Some? && p.reason.None?
            && exists r :: Coarse(r) && Kind(r) == p.capability.value && SignatureFields(r) == p.fields
  {
    if p.capability.Some? && p.reason.None? {
      var k, f := p.capability.value, p.fields;
      if r :| Coarse(r) && Kind(r) == k && SignatureFields(r) == f {
        SignatureIsWellFormed(r);
      }
      if SuppliesExactly(f, k) {
        SignatureOfMaterialized(k, f);
        MaterializedIsCoarse(k, f);
      }
    }
  }

  lemma FieldsOf(k: Capability, f: Fields)
    requires SuppliesExactly(f, k)
    ensures (f.answerTopic.Some? <==> k == ANSWER_QUESTION) && (f.conversationAct.Some? <==> k == CONVERSE)
    ensures (f.cancelSelector.Some? <==> k == CANCEL_ORDERS) && (f.listScope.Some? <==> k == LIST_ORDERS)
    ensures (f.cartOperation.Some? <==> k == MODIFY_CART) && (f.profileField.Some? <==> k == CHANGE_PROFILE)
    ensures (f.statusSelector.Some? <==> k == VERIFY_ORDER_STATUS) && (f.totalSelector.Some? <==> k == READ_ORDER_TOTAL)
  {
    assert Supplies(f, D_ANSWER_TOPIC) <==> Requires(k, D_ANSWER_TOPIC);
    assert Supplies(f, D_CONVERSATION_ACT) <==> Requires(k, D_CONVERSATION_ACT);
    assert Supplies(f, D_CANCEL_SELECTOR) <==> Requires(k, D_CANCEL_SELECTOR);
    assert Supplies(f, D_LIST_SCOPE) <==> Requires(k, D_LIST_SCOPE);
    assert Supplies(f, D_CART_OPERATION) <==> Requires(k, D_CART_OPERATION);
    assert Supplies(f, D_PROFILE_FIELD) <==> Requires(k, D_PROFILE_FIELD);
    assert Supplies(f, D_STATUS_SELECTOR) <==> Requires(k, D_STATUS_SELECTOR);
    assert Supplies(f, D_TOTAL_SELECTOR) <==> Requires(k, D_TOTAL_SELECTOR);
  }

  lemma SignatureOfMaterialized(k: Capability, f: Fields)
    requires SuppliesExactly(f, k)
    ensures Materialize(k, f).Some? && SignatureFields(Materialize(k, f).value) == f
  {
    FieldsOf(k, f);
  }

  // ---------------------------------------------------------------- every answer, exactly

  /** What an ordinary direct request becomes: a question back, the same request without its dead target, or itself. */
  lemma DirectAnswers(c: Context, r: Request)
    requires c.scope == Ordinary
    ensures var out := Resolve(c, Direct(r));
            var dead := match r
                        case VerifyOrderStatus(t) => !TargetIsLive(c, t)
                        case ReadOrderTotal(t) => !TargetIsLive(c, t)
                        case CancelOrders(t) => t == Some(Focused) && !c.hasFocused
                        case _ => false;
            && (out == Clarify(UnsupportedCapability) <==> Kind(r) !in c.available)
            && (Kind(r) in c.available ==> out == Direct(if dead then Untargeted(r) else r))
  {
  }

  /** What everything else becomes: a continuation needs something to continue, and a confirmation yields to a person only. */
  lemma OtherAnswers(c: Context, d: Resolution)
    requires !d.Failed?
    ensures c.scope == Ordinary && d.Continue? ==> Resolve(c, d) == if c.active.Some? then Continue else Failed(DecisionRejected)
    ensures c.scope == Ordinary && d.Clarify? ==> Resolve(c, d) == d
    ensures c.scope == ConfirmationEscape ==>
              Resolve(c, d) == if d == Direct(RequestPerson) && REQUEST_PERSON in c.available then Direct(RequestPerson)
                               else Clarify(AmbiguousIntent)
  {
  }

  /** What each payload means in the request it becomes; a missing one is refused, and fine slots are always left open. */
  lemma PayloadsMean(f: Fields)
    ensures Materialize(ANSWER_QUESTION, f) == if f.answerTopic.Some? then Some(AnswerQuestion(f.answerTopic.value)) else None
    ensures Materialize(CONVERSE, f) == if f.conversationAct.Some? then Some(Converse(f.conversationAct.value)) else None
    ensures Materialize(LIST_ORDERS, f) == if f.listScope.Some? then Some(ListOrders(f.listScope.value)) else None
    ensures Materialize(MODIFY_CART, f)
            == if f.cartOperation.Some? then Some(ModifyCart(f.cartOperation.value, None, None)) else None
    ensures Materialize(CHANGE_PROFILE, f)
            == if f.profileField.Some? then Some(ChangeProfile(f.profileField.value, None)) else None
    ensures Materialize(SEARCH_CATALOG, f) == Some(SearchCatalog(None))
    ensures Materialize(REFUND_ORDER, f) == Some(RefundOrder(None, None, None))
    ensures Materialize(RETURN_ORDER, f) == Some(ReturnOrder(None))
  {
  }

  /** What each order selector means: explicit leaves the target to be gathered, focused and recent name it. */
  lemma SelectorsMean(f: Fields)
    requires f.statusSelector.Some? && f.totalSelector.Some? && f.cancelSelector.Some?
    ensures Materialize(VERIFY_ORDER_STATUS, f)
            == Some(VerifyOrderStatus(if f.statusSelector.value == StatusFocused then Some(Focused)
                                      else if f.statusSelector.value == StatusRecent then Some(Recent) else None))
    ensures Materialize(READ_ORDER_TOTAL, f)
            == Some(ReadOrderTotal(if f.totalSelector.value == TotalFocused then Some(Focused) else None))
    ensures Materialize(CANCEL_ORDERS, f)
            == Some(CancelOrders(if f.cancelSelector.value == CancelFocused then Some(Focused) else None))
  {
  }

  /** What an accepted proposal says, before the context may adjust it. */
  lemma ProposedAnswers(c: Context, p: Proposal)
    requires !Proposed(c, p).Failed?
    ensures Proposed(c, p) == match p.decision
                              case ProposeClarify => Clarify(p.reason.value)
                              case ProposeContinue => Continue
                              case ProposeDirect => Direct(Materialize(p.capability.value, p.fields).value)
  {
  }
}
