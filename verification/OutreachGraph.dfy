/** The initial-outreach agent: an adversarial model proposes tool calls, and the host keeps budgets, the
    provenance of offers and products, and derives the final decision itself.

    `env` answers every outside question of a run, in the order asked: the model, the tools, the clock
    and the abort signal may say anything. */
module OutreachGraph {
  import opened Common
  import opened ProductTarget

  const MAX_MODEL_STEPS := 8
  const MAX_MCP_CALLS := 16
  const MAX_PRODUCT_SEARCHES := 3
  const MAX_PRODUCT_DETAIL_READS := 5
  const MAX_OUTREACH_DEADLINE_MS := 45_000
  const MAX_OUTPUT_TOKENS := 512
  const RECURSION_LIMIT := 48

  datatype Mode = NO_OFFERS | FIXED | AI_BEST_APPLICABLE

  datatype Binding = Binding(
    shopId: string, checkoutRecoveryId: string, outreachAttemptId: string, generation: nat, fingerprint: string)

  datatype Context = Context(mode: Mode, authorised: seq<string>, binding: Binding)

  // ---------------------------------------------------------------- outside world

  datatype Tool =
    | DiscountOptions | DiscountDetails | ProductSearch | ProductRead | GenericTool(name: string) | FinalTool

  /** An argument of a call, as JSON. */
  datatype Value = Absent | Null | Text(s: string) | OtherValue(json: string)

  /** `rest` stands for everything else in the argument object, key order included. */
  datatype Call = Call(tool: Tool, cursor: Value, offerId: Value, productId: Value, variantId: Value, rest: string)

  datatype Choice =
    | ChooseDiscounts(offerIds: seq<string>)
    | ChooseProduct(offerId: string, productId: string, variantId: Option<string>)
    | ChooseNothing

  datatype Reason =
    | MODEL_STEP_INVALID | MODEL_CALL_INVALID | MODEL_FINAL_CALL_MIXED | MODEL_FINAL_CHOICE_INVALID
    | FIRST_TOOL_CALL_MUST_LIST_DISCOUNTS | MODEL_REQUESTED_UNLISTED_TOOL | PRODUCT_SEARCH_BEFORE_CHECKOUT_STAGE
    | OUTREACH_TOOL_NOT_ALLOWED | DISCOUNT_DETAILS_NOT_TIED_TO_AUTHORISED_OPTIONS
    | DISCOUNT_DETAILS_SOURCE_IDENTITY_MISMATCH | DISCOUNT_MODE_MISMATCH
    | PRODUCT_READ_NOT_TIED_TO_OBSERVED_IDENTITY | PRODUCT_EXACT_IDENTITY_MISMATCH
    | PRODUCT_CHOICE_NOT_FROM_OBSERVED_SEARCH | PRODUCT_SEARCH_AFTER_SUPPORTED_CHECKOUT
    | OUTREACH_DUPLICATE_TOOL_CALL | DISCOUNT_PAGE_CURSOR_MISMATCH | OUTREACH_TOOL_RESULT_TOO_LARGE
    | MODEL_STEP_BUDGET_EXHAUSTED | MCP_CALL_OR_DEADLINE_BUDGET_EXHAUSTED | PRODUCT_SEARCH_BUDGET_EXHAUSTED
    | PRODUCT_DETAIL_READ_BUDGET_EXHAUSTED | TOOL_MESSAGE_BUDGET_EXHAUSTED
    | AI_UNAVAILABLE | OUTREACH_DEADLINE | OUTREACH_OPERATION_FAILED | MCP(code: string) | Foreign(message: string)

  /** An exception: of the tool host, of the model, of a timer, one of the host's own, or any other. */
  datatype Thrown =
    | HostError(code: string) | ModelUnavailable | TimedOut | Raised(reason: Reason)
    | OtherError(message: string, mentionsBudget: bool)

  datatype Code = UNAVAILABLE | DENIED | CANCELLED | DEADLINE | BUDGET_EXHAUSTED | INVALID_RESULT

  datatype Failure = Failure(code: Code, reason: Reason)

  datatype Reply =
    | Rejects(error: Thrown)
    | ErrorStatus(code: string)
    | LookupUnavailable
    | OptionsPage(mode: Mode, offers: seq<Offer>, next: Option<string>, truncated: bool)
    | DetailsPage(details: Option<Details>)
    | ProductsPage(products: seq<Product>, next: Option<string>, truncated: bool)
    | OneProduct(product: Option<Product>)
    | Anything

  /** For the final tool, `choice` is what the schema made of the arguments. */
  datatype RawCall = NotACall | RawCall(call: Call, choice: Option<Choice>)

  datatype TextField = NoText | SomeText(s: string) | NotText

  datatype ModelReply =
    | ModelThrows(error: Thrown)
    | NotAStep
    | ModelStep(calls: seq<RawCall>, outputTokens: Option<int>, text: TextField)

  datatype Tick = Tick(
    aborted: Option<Thrown>, now: int, evaluatedAt: int, model: ModelReply, reply: Reply,
    resultFits: bool, messagesFit: bool)

  datatype Observed = Observed(offer: Offer, details: Details, supported: bool)

  datatype Seen = Seen(product: Product, exact: bool)

  datatype Group = Group(supported: bool, offerIds: seq<string>)

  datatype SourceOffer = SourceOffer(
    offerId: string, providerDiscountId: string, redemption: Redemption, code: Option<string>)

  datatype Decision =
    | CheckoutDiscount(offers: seq<SourceOffer>, group: Group, binding: Binding, discoveryIncomplete: bool)
    | AlternativeProduct(offer: SourceOffer, product: Product, binding: Binding, discoveryIncomplete: bool)
    | FailureResult(code: Code, reason: Reason, retryable: bool)
    | NoVerifiedOffer(policyNone: bool, noneAuthorised: bool, discoveryIncomplete: bool)

  /** Foreign functions and constants of a run; nothing is assumed of them. */
  datatype Host = Host(
    context: Context, startedAt: int, tools: Result<set<Tool>, Thrown>, finalAt: Option<int>, library: Library,
    signature: Call -> string,
    evaluate: (Offer, Details, int) -> bool,
    compatible: (map<string, Observed>, seq<string>) -> Group,
    sorted: set<string> -> seq<string>,
    offerSetFits: seq<SourceOffer> -> bool,
    resultFits: Decision -> bool)

  // ---------------------------------------------------------------- state

  /** One call given to the tools, with what the host held just before. */
  datatype Sent = Sent(call: Call, supportedHeld: bool)

  datatype Exchange = Exchange(call: Call, reply: Reply)

  /** `sent` and `log` record the calls given to the tools and those that came back. */
  datatype State = State(
    modelSteps: nat, mcpCalls: nat, optionsCalls: nat, searches: nat, detailReads: nat, messages: seq<Tool>,
    tools: set<Tool>,
    options: map<string, Offer>, observed: map<string, Observed>, products: map<string, Seen>, supported: set<string>,
    incomplete: bool, pendingCalls: seq<Call>, pendingChoice: Option<Choice>,
    decision: Option<Decision>, failure: Option<Failure>, seenCalls: set<string>,
    nextCursor: Option<string>, ticks: nat, sent: seq<Sent>, log: seq<Exchange>)

  const INITIAL := State(
    0, 0, 0, 0, 0, [], {}, map[], map[], map[], {}, false, [], None, None, None, {}, None, 0, [], [])

  predicate IsInvalidResult(r: Reason) {
    r.MODEL_STEP_INVALID? || r.MODEL_CALL_INVALID? || r.MODEL_FINAL_CALL_MIXED? || r.MODEL_FINAL_CHOICE_INVALID?
    || r.FIRST_TOOL_CALL_MUST_LIST_DISCOUNTS? || r.MODEL_REQUESTED_UNLISTED_TOOL?
    || r.PRODUCT_SEARCH_BEFORE_CHECKOUT_STAGE? || r.OUTREACH_TOOL_NOT_ALLOWED?
    || r.DISCOUNT_DETAILS_NOT_TIED_TO_AUTHORISED_OPTIONS? || r.DISCOUNT_DETAILS_SOURCE_IDENTITY_MISMATCH?
    || r.DISCOUNT_MODE_MISMATCH? || r.PRODUCT_READ_NOT_TIED_TO_OBSERVED_IDENTITY?
    || r.PRODUCT_EXACT_IDENTITY_MISMATCH? || r.PRODUCT_CHOICE_NOT_FROM_OBSERVED_SEARCH?
    || r.PRODUCT_SEARCH_AFTER_SUPPORTED_CHECKOUT?
  }

  function FailureFrom(error: Thrown): Failure {
    match error
    case ModelUnavailable => Failure(UNAVAILABLE, AI_UNAVAILABLE)
    case HostError(code) =>
      Failure(if code == "DENIED" then DENIED else if code == "CANCELLED" then CANCELLED
              else if code == "DEADLINE" then DEADLINE else UNAVAILABLE, MCP(code))
    case TimedOut => Failure(DEADLINE, OUTREACH_DEADLINE)
    case Raised(reason) =>
      if IsInvalidResult(reason) then Failure(INVALID_RESULT, reason)
      else Failure(UNAVAILABLE, OUTREACH_OPERATION_FAILED)
    case OtherError(message, mentionsBudget) =>
      if mentionsBudget then Failure(BUDGET_EXHAUSTED, Foreign(message))
      else Failure(UNAVAILABLE, OUTREACH_OPERATION_FAILED)
  }

  function Fail(s: State, error: Thrown): State { s.(failure := Some(FailureFrom(error))) }

  function Exhaust(s: State, reason: Reason): State {
    s.(failure := Some(Failure(BUDGET_EXHAUSTED, reason)), incomplete := true)
  }

  predicate Present(id: Option<string>) { id.Some? && id.value != "" }

  function IdentityKey(productId: string, variantId: Option<string>): string {
    productId + ['\0'] + (if variantId.Some? then variantId.value else "")
  }

  predicate HoldsSupported(s: State) {
    exists id :: id in s.observed && s.observed[id].supported
  }

  function SupportedIds(s: State): set<string> {
    set id | id in s.observed && s.observed[id].supported
  }

  // ---------------------------------------------------------------- one tool call

  datatype Gate = Open | Refused(error: Thrown) | Exhausted(reason: Reason)

  predicate CursorMatches(requested: Value, next: Option<string>) {
    match requested
    case Absent => next.None?
    case Null => next.None?
    case Text(s) => next == Some(s)
    case OtherValue(_) => false
  }

  predicate MayUse(host: Host, id: string) {
    host.context.mode == FIXED ==> id in host.context.authorised
  }

  predicate NamesProduct(call: Call) { call.productId.Text? && (call.variantId.Null? || call.variantId.Text?) }

  function VariantOf(v: Value): Option<string> { if v.Text? then Some(v.s) else None }

  /** Everything that is checked before a call goes out, in order. */
  function GateFor(host: Host, s: State, t: Tick, call: Call): Gate {
    if t.aborted.Some? then Refused(t.aborted.value)
    else if s.mcpCalls >= MAX_MCP_CALLS || t.now - host.startedAt >= MAX_OUTREACH_DEADLINE_MS then
      Exhausted(MCP_CALL_OR_DEADLINE_BUDGET_EXHAUSTED)
    else if s.optionsCalls == 0 && (call.tool.DiscountDetails? || call.tool.ProductSearch? || call.tool.ProductRead?)
            && DiscountOptions in s.tools then Refused(Raised(FIRST_TOOL_CALL_MUST_LIST_DISCOUNTS))
    else if call.tool.ProductSearch? && s.searches >= MAX_PRODUCT_SEARCHES then
      Exhausted(PRODUCT_SEARCH_BUDGET_EXHAUSTED)
    else if call.tool.ProductRead? && s.detailReads >= MAX_PRODUCT_DETAIL_READS then
      Exhausted(PRODUCT_DETAIL_READ_BUDGET_EXHAUSTED)
    else if host.signature(call) in s.seenCalls then Refused(Raised(OUTREACH_DUPLICATE_TOOL_CALL))
    else match call.tool
      case DiscountOptions =>
        if CursorMatches(call.cursor, s.nextCursor) then Open else Refused(Raised(DISCOUNT_PAGE_CURSOR_MISMATCH))
      case DiscountDetails =>
        if call.offerId.Text? && call.offerId.s in s.options && MayUse(host, call.offerId.s) then Open
        else Refused(Raised(DISCOUNT_DETAILS_NOT_TIED_TO_AUTHORISED_OPTIONS))
      case ProductRead =>
        if NamesProduct(call) && IdentityKey(call.productId.s, VariantOf(call.variantId)) in s.products then Open
        else Refused(Raised(PRODUCT_READ_NOT_TIED_TO_OBSERVED_IDENTITY))
      case ProductSearch =>
        if HoldsSupported(s) then Refused(Raised(PRODUCT_SEARCH_AFTER_SUPPORTED_CHECKOUT)) else Open
      case _ => Open
  }

  function AddOffers(host: Host, options: map<string, Offer>, offers: seq<Offer>): map<string, Offer> {
    if offers == [] then options
    else
      var before := AddOffers(host, options, offers[..|offers| - 1]);
      var offer := offers[|offers| - 1];
      if MayUse(host, offer.offerId) then before[offer.offerId := offer] else before
  }

  function AddProducts(seen: map<string, Seen>, products: seq<Product>): map<string, Seen> {
    if products == [] then seen
    else
      var p := products[|products| - 1];
      AddProducts(seen, products[..|products| - 1])[IdentityKey(p.productId, p.variantId) := Seen(p, false)]
  }

  const BAD_SHAPE := OtherError("schema", false)

  function AbsorbOptions(host: Host, s: State, reply: Reply): State {
    if reply.LookupUnavailable? then Fail(s, HostError("UNAVAILABLE"))
    else if !reply.OptionsPage? then Fail(s, BAD_SHAPE)
    else if reply.mode != host.context.mode then Fail(s, Raised(DISCOUNT_MODE_MISMATCH))
    else s.(options := AddOffers(host, s.options, reply.offers), nextCursor := reply.next,
            incomplete := s.incomplete || reply.truncated || reply.next.Some?)
  }

  function AbsorbDetails(host: Host, s: State, reply: Reply, evaluatedAt: int, offerId: Value): State {
    if reply.LookupUnavailable? then Fail(s, HostError("UNAVAILABLE"))
    else if !reply.DetailsPage? then Fail(s, BAD_SHAPE)
    else if reply.details.None? then s
    else if !offerId.Text? || reply.details.value.offer.offerId != offerId.s || offerId.s !in s.options
            || !Present(reply.details.value.providerDiscountId) then
      Fail(s, Raised(DISCOUNT_DETAILS_SOURCE_IDENTITY_MISMATCH))
    else
      var offer, details := s.options[offerId.s], reply.details.value;
      s.(observed := s.observed[offerId.s := Observed(offer, details, host.evaluate(offer, details, evaluatedAt))])
  }

  function AbsorbSearch(s: State, reply: Reply): State {
    if !reply.ProductsPage? then Fail(s, BAD_SHAPE)
    else s.(products := AddProducts(s.products, reply.products),
            incomplete := s.incomplete || reply.truncated || reply.next.Some?)
  }

  function AbsorbRead(s: State, reply: Reply, call: Call): State {
    if !reply.OneProduct? then Fail(s, BAD_SHAPE)
    else if reply.product.None? || !NamesProduct(call) || reply.product.value.productId != call.productId.s
            || reply.product.value.variantId != VariantOf(call.variantId) then
      Fail(s, Raised(PRODUCT_EXACT_IDENTITY_MISMATCH))
    else
      var p := reply.product.value;
      s.(products := s.products[IdentityKey(p.productId, p.variantId) := Seen(p, true)])
  }

  /** What the host takes from a successful reply. */
  function Absorb(host: Host, s: State, t: Tick, call: Call): State {
    match call.tool
    case DiscountOptions => AbsorbOptions(host, s, t.reply)
    case DiscountDetails => AbsorbDetails(host, s, t.reply, t.evaluatedAt, call.offerId)
    case ProductSearch => AbsorbSearch(s, t.reply)
    case ProductRead => AbsorbRead(s, t.reply, call)
    case _ => s
  }

  function Counted(s: State, call: Call, reply: Reply): State {
    s.(mcpCalls := s.mcpCalls + 1,
       optionsCalls := s.optionsCalls + if call.tool.DiscountOptions? then 1 else 0,
       searches := s.searches + if call.tool.ProductSearch? then 1 else 0,
       detailReads := s.detailReads + if call.tool.ProductRead? then 1 else 0,
       log := s.log + [Exchange(call, reply)])
  }

  function Launched(host: Host, s: State, call: Call): State {
    s.(seenCalls := s.seenCalls + {host.signature(call)}, sent := s.sent + [Sent(call, HoldsSupported(s))])
  }

  /** The projected result joins the messages, unless it or they grow too large. */
  function Recorded(s: State, t: Tick, call: Call): State {
    if s.failure.Some? then s
    else if !t.resultFits then Fail(s, Raised(OUTREACH_TOOL_RESULT_TOO_LARGE))
    else
      var told := s.(messages := s.messages + [call.tool]);
      if !t.messagesFit then Exhaust(told, TOOL_MESSAGE_BUDGET_EXHAUSTED) else told
  }

  function Send(host: Host, s: State, t: Tick, call: Call): State {
    var launched := Launched(host, s, call);
    if t.reply.Rejects? then Fail(launched, t.reply.error)
    else
      var counted := Counted(launched, call, t.reply);
      if t.reply.ErrorStatus? then Fail(counted, HostError(t.reply.code))
      else Recorded(Absorb(host, counted, t, call), t, call)
  }

  function OneCall(host: Host, env: nat -> Tick, s: State, call: Call): State {
    var t := env(s.ticks);
    var asked := s.(ticks := s.ticks + 1);
    match GateFor(host, s, t, call)
    case Refused(error) => Fail(asked, error)
    case Exhausted(reason) => Exhaust(asked, reason)
    case Open => Send(host, asked, t, call)
  }

  // ---------------------------------------------------------------- nodes

  function ResolvedTools(host: Host, s: State): State {
    match host.tools
    case Ok(tools) => s.(tools := tools)
    case Err(error) => Fail(s, error)
  }

  predicate ValidChoice(c: Choice) {
    match c
    case ChooseDiscounts(ids) =>
      1 <= |ids| <= 3 && (forall i :: 0 <= i < |ids| ==> 1 <= |ids[i]| <= 191)
      && forall i, j :: 0 <= i < j < |ids| ==> ids[i] != ids[j]
    case ChooseProduct(offerId, productId, variantId) =>
      1 <= |offerId| <= 191 && 1 <= |productId| <= 191 && (variantId.Some? ==> 1 <= |variantId.value| <= 191)
    case ChooseNothing => true
  }

  datatype Validated = Validated(calls: seq<Call>, choice: Option<Choice>)

  /** The first `n` proposed calls, or the first thing wrong with them. */
  function ValidatedCalls(raw: seq<RawCall>, n: nat): Result<Validated, Reason>
    requires n <= |raw|
  {
    if n == 0 then Ok(Validated([], None))
    else
      var before :- ValidatedCalls(raw, n - 1);
      var r := raw[n - 1];
      if r.NotACall? then Err(MODEL_CALL_INVALID)
      else if r.call.tool.FinalTool? then
        if |raw| != 1 then Err(MODEL_FINAL_CALL_MIXED)
        else if r.choice.None? || !ValidChoice(r.choice.value) then Err(MODEL_FINAL_CHOICE_INVALID)
        else Ok(before.(choice := r.choice))
      else Ok(before.(calls := before.calls + [r.call]))
  }

  function ValidatedStep(reply: ModelReply): Result<Validated, Thrown> {
    if reply.ModelThrows? then Err(reply.error)
    else if reply.NotAStep? || |reply.calls| < 1 || |reply.calls| > 3 || reply.outputTokens.None?
       || reply.outputTokens.value < 0 || reply.outputTokens.value > MAX_OUTPUT_TOKENS || reply.text.NotText?
       || (reply.text.SomeText? && |reply.text.s| > 16_000) then Err(Raised(MODEL_STEP_INVALID))
    else match ValidatedCalls(reply.calls, |reply.calls|)
      case Ok(v) => Ok(v)
      case Err(reason) => Err(Raised(reason))
  }

  /** A step is well formed when the limits hold and its calls are either all tool calls or one valid
      final call. */
  predicate WellFormed(reply: ModelReply) {
    && reply.ModelStep? && 1 <= |reply.calls| <= 3
    && reply.outputTokens.Some? && 0 <= reply.outputTokens.value <= MAX_OUTPUT_TOKENS
    && !reply.text.NotText? && (reply.text.SomeText? ==> |reply.text.s| <= 16_000)
    && (IsFinalStep(reply) || forall k :: 0 <= k < |reply.calls| ==> IsToolCall(reply.calls[k]))
  }

  predicate IsToolCall(raw: RawCall) { raw.RawCall? && !raw.call.tool.FinalTool? }

  predicate IsFinalStep(reply: ModelReply)
    requires reply.ModelStep?
  {
    && |reply.calls| == 1 && reply.calls[0].RawCall? && reply.calls[0].call.tool.FinalTool?
    && reply.calls[0].choice.Some? && ValidChoice(reply.calls[0].choice.value)
  }

  /** How far the calls are as they should be, and what has been collected by then. */
  lemma {:induction false} ValidatedCallsMeans(raw: seq<RawCall>, n: nat)
    requires n <= |raw| && 1 <= |raw|
    ensures ValidatedCalls(raw, n).Ok? <==>
              (forall k :: 0 <= k < n ==> IsToolCall(raw[k]))
              || (|raw| == 1 && n == 1 && raw[0].RawCall? && raw[0].call.tool.FinalTool? && raw[0].choice.Some?
                  && ValidChoice(raw[0].choice.value))
    ensures ValidatedCalls(raw, n).Ok? ==>
              var v := ValidatedCalls(raw, n).value;
              if n > 0 && raw[0].call.tool.FinalTool? then v.calls == [] && v.choice == raw[0].choice
              else v.choice == None && |v.calls| == n && forall k :: 0 <= k < n ==> v.calls[k] == raw[k].call
  {
    hide ValidChoice;
    if n > 0 { ValidatedCallsMeans(raw, n - 1); }
  }

  /** Accepted is exactly a well-formed step: a final step gives its choice and no calls, any other the
      calls as proposed and no choice.  A model that throws passes its error on. */
  method ValidateModelStep(reply: ModelReply) returns (r: Result<Validated, Thrown>)
    ensures r == ValidatedStep(reply)
    ensures r.Ok? <==> WellFormed(reply)
    ensures r.Ok? && IsFinalStep(reply) ==> r.value == Validated([], reply.calls[0].choice)
    ensures r.Ok? && !IsFinalStep(reply) ==>
              r.value.choice == None && |r.value.calls| == |reply.calls|
              && forall k :: 0 <= k < |reply.calls| ==> r.value.calls[k] == reply.calls[k].call
    ensures r.Err? ==> if reply.ModelThrows? then r.error == reply.error else r.error.Raised?
  {
    if reply.ModelThrows? { return Err(reply.error); }
    if reply.NotAStep? || |reply.calls| < 1 || |reply.calls| > 3 || reply.outputTokens.None?
       || reply.outputTokens.value < 0 || reply.outputTokens.value > MAX_OUTPUT_TOKENS || reply.text.NotText?
       || (reply.text.SomeText? && |reply.text.s| > 16_000) {
      return Err(Raised(MODEL_STEP_INVALID));
    }
    ValidatedCallsMeans(reply.calls, |reply.calls|);
    var calls: seq<Call> := [];
    var choice: Option<Choice> := None;
    var n := 0;
    while n < |reply.calls|
      invariant 0 <= n <= |reply.calls|
      invariant ValidatedCalls(reply.calls, n) == Ok(Validated(calls, choice))
    {
      var raw := reply.calls[n];
      var wrong: Option<Reason> := None;
      if raw.NotACall? {
        wrong := Some(MODEL_CALL_INVALID);
      } else if raw.call.tool.FinalTool? {
        if |reply.calls| != 1 { wrong := Some(MODEL_FINAL_CALL_MIXED); }
        else if raw.choice.None? || !ValidChoice(raw.choice.value) { wrong := Some(MODEL_FINAL_CHOICE_INVALID); }
        else { choice := raw.choice; }
      } else {
        calls := calls + [raw.call];
      }
      n := n + 1;
      if wrong.Some? {
        WrongStaysWrong(reply.calls, n, |reply.calls|);
        return Err(Raised(wrong.value));
      }
    }
    return Ok(Validated(calls, choice));
  }

  lemma {:induction false} WrongStaysWrong(raw: seq<RawCall>, n: nat, m: nat)
    requires n <= m <= |raw| && ValidatedCalls(raw, n).Err?
    ensures ValidatedCalls(raw, m) == ValidatedCalls(raw, n)
  {
    if n < m { WrongStaysWrong(raw, n, m - 1); }
  }

  function ReadCall(c: Choice): Call
    requires c.ChooseProduct?
  {
    Call(ProductRead, Absent, Absent, Text(c.productId),
         if c.variantId.Some? then Text(c.variantId.value) else Null, "")
  }

  /** Why a well-formed step of the model is turned down, if it is. */
  function StepRefusal(s: State, v: Validated): Option<Reason> {
    if v.choice.Some? && s.optionsCalls == 0 && DiscountOptions in s.tools then
      Some(FIRST_TOOL_CALL_MUST_LIST_DISCOUNTS)
    else if exists k :: 0 <= k < |v.calls| && v.calls[k].tool !in s.tools then Some(MODEL_REQUESTED_UNLISTED_TOOL)
    else if s.supported != {} && exists k :: 0 <= k < |v.calls| && v.calls[k].tool.ProductSearch? then
      Some(PRODUCT_SEARCH_BEFORE_CHECKOUT_STAGE)
    else if v.choice.Some? && v.choice.value.ChooseProduct?
            && IdentityKey(v.choice.value.productId, v.choice.value.variantId) !in s.products then
      Some(PRODUCT_CHOICE_NOT_FROM_OBSERVED_SEARCH)
    else None
  }

  /** A chosen product that was not read exactly is read before the decision. */
  function CallsToRun(s: State, v: Validated): seq<Call> {
    if v.choice.Some? && v.choice.value.ChooseProduct? then
      var key := IdentityKey(v.choice.value.productId, v.choice.value.variantId);
      if key in s.products && s.products[key].exact then v.calls else [ReadCall(v.choice.value)]
    else v.calls
  }

  function Accepted(s: State, v: Validated): State {
    var stepped := s.(modelSteps := s.modelSteps + 1);
    if StepRefusal(s, v).Some? then Fail(stepped, Raised(StepRefusal(s, v).value))
    else stepped.(pendingCalls := CallsToRun(s, v), pendingChoice := v.choice)
  }

  /** One step of the model. */
  function Stepped(s: State, reply: ModelReply): State {
    match ValidatedStep(reply)
    case Err(error) => Fail(s.(modelSteps := s.modelSteps + 1), error)
    case Ok(v) => Accepted(s, v)
  }

  function InvokedModel(host: Host, env: nat -> Tick, s: State): State {
    if s.failure.Some? || s.pendingChoice.Some? then s
    else
      var t := env(s.ticks);
      var asked := s.(ticks := s.ticks + 1);
      if t.aborted.Some? then Fail(asked, t.aborted.value)
      else if t.now - host.startedAt >= MAX_OUTREACH_DEADLINE_MS then
        asked.(failure := Some(Failure(DEADLINE, OUTREACH_DEADLINE)))
      else if s.modelSteps >= MAX_MODEL_STEPS then Exhaust(asked, MODEL_STEP_BUDGET_EXHAUSTED)
      else Stepped(asked, t.model)
  }

  function Executed(host: Host, env: nat -> Tick, s: State, calls: seq<Call>, n: nat): State
    requires n <= |calls|
  {
    if n == 0 then s
    else
      var before := Executed(host, env, s, calls, n - 1);
      if before.failure.Some? then before else OneCall(host, env, before, calls[n - 1])
  }

  function ExecutedToolCalls(host: Host, env: nat -> Tick, s: State): State {
    if s.failure.Some? || s.pendingCalls == [] then s
    else
      var done := Executed(host, env, s, s.pendingCalls, |s.pendingCalls|);
      done.(supported := SupportedIds(done), pendingCalls := [])
  }

  lemma {:induction false} ExecutionStops(host: Host, env: nat -> Tick, s: State, calls: seq<Call>, n: nat, m: nat)
    requires n <= m <= |calls| && Executed(host, env, s, calls, n).failure.Some?
    ensures Executed(host, env, s, calls, m) == Executed(host, env, s, calls, n)
  {
    hide OneCall;
    if n < m { ExecutionStops(host, env, s, calls, n, m - 1); }
  }

  method ExecuteToolCalls(host: Host, env: nat -> Tick, s: State) returns (r: State)
    ensures r == ExecutedToolCalls(host, env, s)
  {
    hide OneCall;
    if s.failure.Some? || s.pendingCalls == [] { return s; }
    r := s;
    var n := 0;
    while n < |s.pendingCalls|
      invariant 0 <= n <= |s.pendingCalls| && r.failure.None?
      invariant r == Executed(host, env, s, s.pendingCalls, n)
    {
      r := OneCall(host, env, r, s.pendingCalls[n]);
      n := n + 1;
      if r.failure.Some? { break; }
    }
    if r.failure.Some? { ExecutionStops(host, env, s, s.pendingCalls, n, |s.pendingCalls|); }
    r := r.(supported := SupportedIds(r), pendingCalls := []);
  }

  // ---------------------------------------------------------------- the final decision

  /** The code counts only for a discount redeemed by code. */
  function Bound(candidate: Observed): SourceOffer
    requires candidate.details.providerDiscountId.Some?
  {
    SourceOffer(candidate.offer.offerId, candidate.details.providerDiscountId.value, candidate.offer.redemption,
                if candidate.offer.redemption == CODE then candidate.offer.code else None)
  }

  predicate Consistent(observed: map<string, Observed>, id: string) {
    && id in observed && Present(observed[id].details.providerDiscountId)
    && observed[id].offer.offerId == observed[id].details.offer.offerId
    && observed[id].offer.redemption == observed[id].details.offer.redemption
    && observed[id].offer.code == observed[id].details.offer.code
  }

  function BoundOffers(observed: map<string, Observed>, ids: seq<string>): (r: Option<seq<SourceOffer>>)
    ensures r.Some? <==> forall k :: 0 <= k < |ids| ==> Consistent(observed, ids[k])
    ensures r.Some? ==> |r.value| == |ids| && forall k :: 0 <= k < |ids| ==> r.value[k] == Bound(observed[ids[k]])
  {
    if ids == [] then Some([])
    else
      var before := BoundOffers(observed, ids[..|ids| - 1]);
      var last := ids[|ids| - 1];
      if before.None? || !Consistent(observed, last) then None else Some(before.value + [Bound(observed[last])])
  }

  /** Offers are looked up by their own id among the candidates. */
  method SourceOfferSet(host: Host, observed: map<string, Observed>, proposed: seq<string>)
    returns (r: Option<(Group, seq<SourceOffer>)>)
    ensures var group := host.compatible(observed, proposed);
            && (r.Some? <==> group.supported && |group.offerIds| >= 1 && BoundOffers(observed, group.offerIds).Some?)
            && (r.Some? ==> r.value == (group, BoundOffers(observed, group.offerIds).value))
  {
    var group := host.compatible(observed, proposed);
    if !group.supported || |group.offerIds| < 1 { return None; }
    var offers: seq<SourceOffer> := [];
    for k := 0 to |group.offerIds|
      invariant |offers| == k
      invariant forall j :: 0 <= j < k ==>
                  Consistent(observed, group.offerIds[j]) && offers[j] == Bound(observed[group.offerIds[j]])
    {
      if !Consistent(observed, group.offerIds[k]) { return None; }
      offers := offers + [Bound(observed[group.offerIds[k]])];
    }
    assert offers == BoundOffers(observed, group.offerIds).value;
    return Some((group, offers));
  }

  /** None when no supported, source-bound set of offers comes out; Err when the result schema refuses. */
  function CheckoutDecision(host: Host, s: State, proposed: seq<string>): Option<Result<Decision, Decision>> {
    var group := host.compatible(s.observed, proposed);
    if !group.supported || |group.offerIds| < 1 then None
    else
      var offers := BoundOffers(s.observed, group.offerIds);
      if offers.None? || !host.offerSetFits(offers.value) then None
      else Some(Parsed(host, CheckoutDiscount(offers.value, group, host.context.binding, s.incomplete)))
  }

  function Parsed(host: Host, d: Decision): Result<Decision, Decision> {
    if host.resultFits(d) then Ok(d) else Err(d)
  }

  function ProductDecision(host: Host, s: State, c: Choice): Option<Result<Decision, Decision>>
    requires c.ChooseProduct?
  {
    var key := IdentityKey(c.productId, c.variantId);
    if c.offerId !in s.observed || key !in s.products then None
    else
      var candidate, exact := s.observed[c.offerId], s.products[key];
      if exact.exact && exact.product.productId == c.productId && exact.product.variantId == c.variantId
         && Matches(host.library, candidate.offer, candidate.details, exact.product, host.finalAt)
         && Present(candidate.details.providerDiscountId) then
        Some(Parsed(host, AlternativeProduct(Bound(candidate), exact.product, host.context.binding, s.incomplete)))
      else None
  }

  function ChosenDecision(host: Host, s: State): Option<Result<Decision, Decision>> {
    match s.pendingChoice
    case Some(ChooseDiscounts(ids)) => CheckoutDecision(host, s, ids)
    case Some(ChooseProduct(offerId, productId, variantId)) =>
      ProductDecision(host, s, ChooseProduct(offerId, productId, variantId))
    case _ => None
  }

  function FallbackDecision(host: Host, s: State): Option<Result<Decision, Decision>> {
    CheckoutDecision(host, s, host.sorted(s.supported))
  }

  /** The model's choice if it holds, else the supported discounts, else the failure, else nothing. */
  function FinalResult(host: Host, s: State): Result<Decision, Decision> {
    if ChosenDecision(host, s).Some? then ChosenDecision(host, s).value
    else if FallbackDecision(host, s).Some? then FallbackDecision(host, s).value
    else if s.failure.Some? then
      Parsed(host, FailureResult(s.failure.value.code, s.failure.value.reason,
                                 s.failure.value.code in {UNAVAILABLE, DEADLINE, BUDGET_EXHAUSTED}))
    else
      Parsed(host, NoVerifiedOffer(host.context.mode == NO_OFFERS,
                                   host.context.mode == FIXED && |host.context.authorised| == 0, s.incomplete))
  }

  // ---------------------------------------------------------------- runs

  /** A run ends with a decision, or is rejected because the result schema refused the one derived. */
  datatype Node = ResolveTools | InvokeModel | RunTools | FinalizeDecision | End | Rejected

  predicate Over(at: Node) { at == End || at == Rejected }

  function RouteAfterModel(s: State): Node {
    if s.failure.Some? then FinalizeDecision
    else if s.pendingCalls != [] then RunTools
    else if s.pendingChoice.Some? then FinalizeDecision else RunTools
  }

  function RouteAfterTools(s: State): Node {
    if s.failure.Some? || s.pendingChoice.Some? then FinalizeDecision else InvokeModel
  }

  function Superstep(host: Host, env: nat -> Tick, at: Node, s: State): (Node, State) {
    match at
    case ResolveTools => (InvokeModel, ResolvedTools(host, s))
    case InvokeModel =>
      var t := InvokedModel(host, env, s);
      (RouteAfterModel(t), t)
    case RunTools =>
      var t := ExecutedToolCalls(host, env, s);
      (RouteAfterTools(t), t)
    case FinalizeDecision =>
      (match FinalResult(host, s)
       case Ok(d) => (End, s.(decision := Some(d)))
       case Err(_) => (Rejected, s))
    case End => (End, s)
    case Rejected => (Rejected, s)
  }

  /** The graph after `n` supersteps. */
  function Run(host: Host, env: nat -> Tick, n: nat): (Node, State) {
    if n == 0 then (ResolveTools, INITIAL)
    else
      var before := Run(host, env, n - 1);
      Superstep(host, env, before.0, before.1)
  }

  // ---------------------------------------------------------------- what a run keeps

  predicate ListsOffer(x: Exchange, mode: Mode, offer: Offer) {
    x.call.tool.DiscountOptions? && x.reply.OptionsPage? && x.reply.mode == mode && offer in x.reply.offers
  }

  predicate ReadsDetails(x: Exchange, id: string, details: Details) {
    x.call.tool.DiscountDetails? && x.call.offerId == Text(id) && x.reply == DetailsPage(Some(details))
  }

  predicate FindsKey(x: Exchange, key: string) {
    x.call.tool.ProductSearch? && x.reply.ProductsPage?
    && exists k :: 0 <= k < |x.reply.products|
                   && IdentityKey(x.reply.products[k].productId, x.reply.products[k].variantId) == key
  }

  predicate ReadsExactly(x: Exchange, p: Product) {
    x.call.tool.ProductRead? && x.call.productId == Text(p.productId) && VariantOf(x.call.variantId) == p.variantId
    && NamesProduct(x.call) && x.reply == OneProduct(Some(p))
  }

  predicate Listed(log: seq<Exchange>, mode: Mode, offer: Offer) {
    exists k :: 0 <= k < |log| && ListsOffer(log[k], mode, offer)
  }

  predicate DetailsRead(log: seq<Exchange>, id: string, details: Details) {
    exists k :: 0 <= k < |log| && ReadsDetails(log[k], id, details)
  }

  predicate Found(log: seq<Exchange>, key: string) {
    exists k :: 0 <= k < |log| && FindsKey(log[k], key)
  }

  /** First found by a search, later read exactly. */
  predicate ReadAfterSearch(log: seq<Exchange>, p: Product) {
    exists k :: 0 <= k < |log| && ReadsExactly(log[k], p) && Found(log[..k], IdentityKey(p.productId, p.variantId))
  }

  function CountOf(log: seq<Exchange>, tool: Tool): nat {
    if log == [] then 0
    else CountOf(log[..|log| - 1], tool) + if log[|log| - 1].call.tool == tool then 1 else 0
  }

  /** The cursor of the latest page of discounts that was accepted. */
  function LastCursor(mode: Mode, log: seq<Exchange>): Option<string> {
    if log == [] then None
    else
      var x := log[|log| - 1];
      if x.call.tool.DiscountOptions? && x.reply.OptionsPage? && x.reply.mode == mode then x.reply.next
      else LastCursor(mode, log[..|log| - 1])
  }

  /** The budgets count what really happened; only a call that failed outright is sent but not logged. */
  predicate WithinBudgets(s: State) {
    && s.modelSteps <= MAX_MODEL_STEPS
    && s.mcpCalls == |s.log| <= MAX_MCP_CALLS
    && s.optionsCalls == CountOf(s.log, DiscountOptions)
    && s.searches == CountOf(s.log, ProductSearch) <= MAX_PRODUCT_SEARCHES
    && s.detailReads == CountOf(s.log, ProductRead) <= MAX_PRODUCT_DETAIL_READS
    && |s.log| <= |s.sent| <= MAX_MCP_CALLS
    && (|s.sent| == |s.log| || (s.failure.Some? && |s.sent| == |s.log| + 1))
    && forall k :: 0 <= k < |s.log| ==> s.sent[k].call == s.log[k].call
  }

  /** A call with this signature went out. */
  predicate WasSent(host: Host, s: State, signature: string) {
    exists k :: 0 <= k < |s.sent| && host.signature(s.sent[k].call) == signature
  }

  /** The calls remembered are exactly those sent, and no two of them have one signature. */
  predicate NeverTwice(host: Host, s: State) {
    && (forall k :: 0 <= k < |s.sent| ==> host.signature(s.sent[k].call) in s.seenCalls)
    && (forall text :: text in s.seenCalls ==> WasSent(host, s, text))
    && forall j, k :: 0 <= j < k < |s.sent| ==> host.signature(s.sent[j].call) != host.signature(s.sent[k].call)
  }

  /** Every page of discounts was asked for with the cursor of the page before it, and no product search
      went out while a supported offer was held. */
  predicate InOrder(host: Host, s: State) {
    && s.nextCursor == LastCursor(host.context.mode, s.log)
    && |s.sent| <= |s.log| + 1
    && (forall k :: 0 <= k < |s.sent| && s.sent[k].call.tool.DiscountOptions? ==>
          CursorMatches(s.sent[k].call.cursor, LastCursor(host.context.mode, s.log[..k])))
    && (forall k :: 0 <= k < |s.sent| && s.sent[k].call.tool.ProductSearch? ==> !s.sent[k].supportedHeld)
  }

  predicate OptionsAreListed(host: Host, s: State) {
    forall id :: id in s.options ==>
      s.options[id].offerId == id && MayUse(host, id) && Listed(s.log, host.context.mode, s.options[id])
  }

  predicate OffersAreSourced(host: Host, s: State) {
    && s.observed.Keys <= s.options.Keys
    && forall id :: id in s.observed ==> OfferIsSourced(host, s.log, id, s.observed[id])
  }

  predicate OfferIsSourced(host: Host, log: seq<Exchange>, id: string, o: Observed) {
    && o.offer.offerId == id && MayUse(host, id) && Listed(log, host.context.mode, o.offer)
    && o.details.offer.offerId == id && Present(o.details.providerDiscountId) && DetailsRead(log, id, o.details)
  }

  predicate ProductIsSourced(log: seq<Exchange>, key: string, q: Seen) {
    && IdentityKey(q.product.productId, q.product.variantId) == key && Found(log, key)
    && (q.exact ==> ReadAfterSearch(log, q.product))
  }

  predicate ProductsAreSourced(s: State) {
    forall key :: key in s.products ==> ProductIsSourced(s.log, key, s.products[key])
  }

  /** The tool answered a read of the product with this key by that very product. */
  predicate AcceptsRead(x: Exchange, key: string) {
    && x.reply.OneProduct? && x.reply.product.Some? && ReadsExactly(x, x.reply.product.value)
    && IdentityKey(x.reply.product.value.productId, x.reply.product.value.variantId) == key
  }

  /** What the latest exchange about a key was, if any: an accepted read, or a search that returned it. */
  function LatestIsRead(log: seq<Exchange>, key: string): Option<bool> {
    if log == [] then None
    else
      var x := log[|log| - 1];
      if AcceptsRead(x, key) then Some(true)
      else if FindsKey(x, key) then Some(false)
      else LatestIsRead(log[..|log| - 1], key)
  }

  predicate KeyIsTracked(log: seq<Exchange>, products: map<string, Seen>, key: string) {
    if key in products then LatestIsRead(log, key) == Some(products[key].exact) else LatestIsRead(log, key) == None
  }

  /** A product counts as exactly read as long as the latest exchange about it was an accepted read, and
      no longer: a later search that returns it takes that back. */
  ghost predicate ReadsAreTracked(s: State) {
    forall key: string :: KeyIsTracked(s.log, s.products, key)
  }

  predicate EvidenceIsSourced(host: Host, s: State) {
    OptionsAreListed(host, s) && OffersAreSourced(host, s) && ProductsAreSourced(s)
  }

  ghost predicate Inv(host: Host, s: State) {
    WithinBudgets(s) && NeverTwice(host, s) && InOrder(host, s) && EvidenceIsSourced(host, s) && ReadsAreTracked(s)
  }

  // ---------------------------------------------------------------- a call keeps it

  lemma ProvenanceGrows(host: Host, log: seq<Exchange>, x: Exchange)
    ensures forall offer :: Listed(log, host.context.mode, offer) ==> Listed(log + [x], host.context.mode, offer)
    ensures forall id, o :: OfferIsSourced(host, log, id, o) ==> OfferIsSourced(host, log + [x], id, o)
    ensures forall key, q :: ProductIsSourced(log, key, q) ==> ProductIsSourced(log + [x], key, q)
  {
    var more := log + [x];
    forall offer | Listed(log, host.context.mode, offer)
      ensures Listed(more, host.context.mode, offer)
    {
      var k :| 0 <= k < |log| && ListsOffer(log[k], host.context.mode, offer);
      assert ListsOffer(more[k], host.context.mode, offer);
    }
    forall id, o | OfferIsSourced(host, log, id, o)
      ensures OfferIsSourced(host, more, id, o)
    {
      var k :| 0 <= k < |log| && ReadsDetails(log[k], id, o.details);
      assert ReadsDetails(more[k], id, o.details);
    }
    forall key, q | ProductIsSourced(log, key, q)
      ensures ProductIsSourced(more, key, q)
    {
      var k :| 0 <= k < |log| && FindsKey(log[k], key);
      assert FindsKey(more[k], key);
      if q.exact {
        var i :| 0 <= i < |log| && ReadsExactly(log[i], q.product)
                 && Found(log[..i], IdentityKey(q.product.productId, q.product.variantId));
        assert more[..i] == log[..i] && ReadsExactly(more[i], q.product);
      }
    }
  }

  lemma {:induction false} AddOffersFacts(host: Host, options: map<string, Offer>, offers: seq<Offer>)
    ensures options.Keys <= AddOffers(host, options, offers).Keys
    ensures forall id :: id in AddOffers(host, options, offers) ==>
              (id in options && AddOffers(host, options, offers)[id] == options[id])
              || (MayUse(host, id) && AddOffers(host, options, offers)[id] in offers
                  && AddOffers(host, options, offers)[id].offerId == id)
  {
    if offers != [] { AddOffersFacts(host, options, offers[..|offers| - 1]); }
  }

  lemma {:induction false} AddProductsFacts(seen: map<string, Seen>, products: seq<Product>)
    ensures forall key :: key in AddProducts(seen, products) ==>
              (key in seen && AddProducts(seen, products)[key] == seen[key])
              || (!AddProducts(seen, products)[key].exact
                  && AddProducts(seen, products)[key].product in products
                  && IdentityKey(AddProducts(seen, products)[key].product.productId,
                                 AddProducts(seen, products)[key].product.variantId) == key)
  {
    if products != [] { AddProductsFacts(seen, products[..|products| - 1]); }
  }

  /** The parts of the state that a reply does not touch. */
  predicate SameTrace(s: State, r: State) {
    && r.modelSteps == s.modelSteps && r.mcpCalls == s.mcpCalls && r.optionsCalls == s.optionsCalls
    && r.searches == s.searches && r.detailReads == s.detailReads && r.seenCalls == s.seenCalls
    && r.sent == s.sent && r.log == s.log && r.tools == s.tools && r.pendingCalls == s.pendingCalls
    && r.pendingChoice == s.pendingChoice && r.supported == s.supported && r.decision == s.decision
  }

  /** What was absorbed. */
  predicate SameEvidence(s: State, r: State) {
    r.options == s.options && r.observed == s.observed && r.products == s.products && r.nextCursor == s.nextCursor
  }

  lemma AbsorbOptionsShape(host: Host, s: State, reply: Reply)
    ensures var r := AbsorbOptions(host, s, reply);
            && SameTrace(s, r) && r.observed == s.observed && r.products == s.products
            && if reply.OptionsPage? && reply.mode == host.context.mode
               then r.options == AddOffers(host, s.options, reply.offers) && r.nextCursor == reply.next
               else r.options == s.options && r.nextCursor == s.nextCursor
  {
    hide AddOffers, FailureFrom;
  }

  lemma AbsorbDetailsShape(host: Host, s: State, reply: Reply, evaluatedAt: int, offerId: Value)
    ensures var r := AbsorbDetails(host, s, reply, evaluatedAt, offerId);
            && SameTrace(s, r) && r.options == s.options && r.products == s.products && r.nextCursor == s.nextCursor
            && (r.observed == s.observed
                || (offerId.Text? && offerId.s in s.options && reply.DetailsPage? && reply.details.Some?
                    && reply.details.value.offer.offerId == offerId.s && Present(reply.details.value.providerDiscountId)
                    && r.observed == s.observed[offerId.s := Observed(s.options[offerId.s], reply.details.value,
                         host.evaluate(s.options[offerId.s], reply.details.value, evaluatedAt))]))
  {
    hide FailureFrom;
  }

  lemma AbsorbSearchShape(s: State, reply: Reply)
    ensures var r := AbsorbSearch(s, reply);
            && SameTrace(s, r) && r.options == s.options && r.observed == s.observed && r.nextCursor == s.nextCursor
            && r.products == if reply.ProductsPage? then AddProducts(s.products, reply.products) else s.products
  {
    hide AddProducts, FailureFrom;
  }

  lemma AbsorbReadShape(s: State, reply: Reply, call: Call)
    ensures var r := AbsorbRead(s, reply, call);
            && SameTrace(s, r) && r.options == s.options && r.observed == s.observed && r.nextCursor == s.nextCursor
            && (r.products == s.products
                || (reply.OneProduct? && reply.product.Some?
                    && ReadsExactly(Exchange(call.(tool := ProductRead), reply), reply.product.value)
                    && IdentityKey(call.productId.s, VariantOf(call.variantId))
                       == IdentityKey(reply.product.value.productId, reply.product.value.variantId)
                    && var p := reply.product.value;
                    r.products == s.products[IdentityKey(p.productId, p.variantId) := Seen(p, true)]))
  {
    hide IdentityKey, FailureFrom;
  }

  lemma AbsorbTouchesEvidenceOnly(host: Host, s: State, t: Tick, call: Call)
    ensures SameTrace(s, Absorb(host, s, t, call))
  {
    hide AbsorbOptions, AbsorbDetails, AbsorbSearch, AbsorbRead;
    AbsorbOptionsShape(host, s, t.reply);
    AbsorbDetailsShape(host, s, t.reply, t.evaluatedAt, call.offerId);
    AbsorbSearchShape(s, t.reply);
    AbsorbReadShape(s, t.reply, call);
  }

  lemma SendShape(host: Host, s: State, t: Tick, call: Call)
    requires s.failure.None?
    ensures var r := Send(host, s, t, call);
            var launched := Launched(host, s, call);
            var counted := Counted(launched, call, t.reply);
            if t.reply.Rejects? then SameTrace(launched, r) && SameEvidence(s, r) && r.failure.Some?
            else if t.reply.ErrorStatus? then SameTrace(counted, r) && SameEvidence(s, r)
            else SameTrace(counted, r) && SameEvidence(Absorb(host, counted, t, call), r)
  {
    hide Absorb;
    AbsorbTouchesEvidenceOnly(host, Counted(Launched(host, s, call), call, t.reply), t, call);
  }

  lemma {:induction false} AddProductsExactly(seen: map<string, Seen>, products: seq<Product>, key: string)
    ensures var added := AddProducts(seen, products);
            if exists k :: 0 <= k < |products| && IdentityKey(products[k].productId, products[k].variantId) == key
            then key in added && !added[key].exact
            else (key in added <==> key in seen) && (key in seen ==> added[key] == seen[key])
  {
    hide IdentityKey;
    if products != [] {
      var n := |products| - 1;
      AddProductsExactly(seen, products[..n], key);
      assert forall k :: 0 <= k < n ==> products[..n][k] == products[k];
    }
  }

  lemma AbsorbedReads(host: Host, s: State, t: Tick, call: Call, key: string)
    requires |s.log| > 0 && s.log[|s.log| - 1] == Exchange(call, t.reply)
    requires KeyIsTracked(s.log[..|s.log| - 1], s.products, key)
    ensures KeyIsTracked(s.log, Absorb(host, s, t, call).products, key)
  {
    hide AbsorbOptions, AbsorbDetails, AbsorbSearch, AddOffers, AddProducts, IdentityKey, FailureFrom, SameTrace;
    match call.tool
    case DiscountOptions => AbsorbOptionsShape(host, s, t.reply);
    case DiscountDetails => AbsorbDetailsShape(host, s, t.reply, t.evaluatedAt, call.offerId);
    case ProductSearch =>
      AbsorbSearchShape(s, t.reply);
      if t.reply.ProductsPage? { AddProductsExactly(s.products, t.reply.products, key); }
    case ProductRead =>
    case _ =>
  }

  /** A call that never came back, or came back as an error, tells nothing about a product. */
  lemma ErrorsTellNothing(log: seq<Exchange>, call: Call, code: string, products: map<string, Seen>, key: string)
    requires KeyIsTracked(log, products, key)
    ensures KeyIsTracked(log + [Exchange(call, ErrorStatus(code))], products, key)
  {
    assert (log + [Exchange(call, ErrorStatus(code))])[..|log|] == log;
  }

  lemma SendKeepsReads(host: Host, s: State, t: Tick, call: Call)
    requires ReadsAreTracked(s) && s.failure.None?
    ensures ReadsAreTracked(Send(host, s, t, call))
  {
    hide Absorb, Send, HoldsSupported, KeyIsTracked;
    SendShape(host, s, t, call);
    var counted := Counted(Launched(host, s, call), call, t.reply);
    assert counted.log[..|s.log|] == s.log;
    forall key: string
      ensures KeyIsTracked(Send(host, s, t, call).log, Send(host, s, t, call).products, key)
    {
      assert KeyIsTracked(s.log, s.products, key);
      if t.reply.ErrorStatus? {
        ErrorsTellNothing(s.log, call, t.reply.code, s.products, key);
      } else if !t.reply.Rejects? {
        AbsorbedReads(host, counted, t, call, key);
        AbsorbTouchesEvidenceOnly(host, counted, t, call);
      }
    }
  }

  lemma SendKeepsBudgets(host: Host, s: State, t: Tick, call: Call)
    requires WithinBudgets(s) && s.failure.None? && GateFor(host, s, t, call) == Open
    ensures WithinBudgets(Send(host, s, t, call))
  {
    hide Absorb, HoldsSupported, SameEvidence;
    SendShape(host, s, t, call);
    assert (s.log + [Exchange(call, t.reply)])[..|s.log|] == s.log;
  }

  lemma SendNeverRepeats(host: Host, s: State, t: Tick, call: Call)
    requires NeverTwice(host, s) && s.failure.None? && GateFor(host, s, t, call) == Open
    ensures NeverTwice(host, Send(host, s, t, call))
  {
    hide Absorb, HoldsSupported, SameEvidence;
    SendShape(host, s, t, call);
    var r := Send(host, s, t, call);
    forall text | text in r.seenCalls
      ensures WasSent(host, r, text)
    {
      if text in s.seenCalls {
        assert WasSent(host, s, text);
        var k :| 0 <= k < |s.sent| && host.signature(s.sent[k].call) == text;
        assert r.sent[k] == s.sent[k];
      } else {
        assert host.signature(r.sent[|s.sent|].call) == text;
      }
    }
  }

  /** What an open gate says about the order of calls. */
  lemma OpenGateKeepsOrder(host: Host, s: State, t: Tick, call: Call)
    requires GateFor(host, s, t, call) == Open
    ensures call.tool.DiscountOptions? ==> CursorMatches(call.cursor, s.nextCursor)
    ensures call.tool.ProductSearch? ==> !HoldsSupported(s)
  {
    hide IdentityKey, MayUse, CursorMatches, HoldsSupported;
  }

  /** One more call, that came back or not. */
  lemma OrderGrows(host: Host, s: State, r: State, call: Call, held: bool, more: seq<Exchange>)
    requires InOrder(host, s) && |s.sent| == |s.log| && |more| <= 1
    requires r.sent == s.sent + [Sent(call, held)] && r.log == s.log + more
    requires r.nextCursor == LastCursor(host.context.mode, r.log)
    requires call.tool.DiscountOptions? ==> CursorMatches(call.cursor, s.nextCursor)
    requires call.tool.ProductSearch? ==> !held
    ensures InOrder(host, r)
  {
    hide CursorMatches, LastCursor;
    forall k | 0 <= k <= |s.log|
      ensures r.log[..k] == s.log[..k]
    {}
    assert s.log[..|s.log|] == s.log;
  }

  lemma SendKeepsOrder(host: Host, s: State, t: Tick, call: Call)
    requires WithinBudgets(s) && InOrder(host, s) && s.failure.None? && GateFor(host, s, t, call) == Open
    ensures InOrder(host, Send(host, s, t, call))
  {
    OpenGateKeepsOrder(host, s, t, call);
    OrderIsKnown(host, s);
    hide Absorb, HoldsSupported, Send, CursorMatches, GateFor, InOrder, WithinBudgets, LastCursor;
    SendShape(host, s, t, call);
    var r := Send(host, s, t, call);
    if t.reply.Rejects? {
      assert r.log == s.log + [];
      OrderGrows(host, s, r, call, HoldsSupported(s), []);
    } else {
      var counted := Counted(Launched(host, s, call), call, t.reply);
      assert counted.log[..|s.log|] == s.log;
      AbsorbedCursor(host, counted, t, call);
      ErrorsMoveNoCursor(host, s.log, call, t.reply);
      OrderGrows(host, s, r, call, HoldsSupported(s), [Exchange(call, t.reply)]);
    }
  }

  lemma OrderIsKnown(host: Host, s: State)
    requires WithinBudgets(s) && InOrder(host, s) && s.failure.None?
    ensures |s.sent| == |s.log| && s.nextCursor == LastCursor(host.context.mode, s.log)
  {
    hide CountOf, LastCursor;
  }

  lemma ErrorsMoveNoCursor(host: Host, log: seq<Exchange>, call: Call, reply: Reply)
    ensures !reply.OptionsPage? ==>
              LastCursor(host.context.mode, log + [Exchange(call, reply)]) == LastCursor(host.context.mode, log)
  {
    assert (log + [Exchange(call, reply)])[..|log|] == log;
  }

  /** After a reply the expected cursor is that of the latest accepted page. */
  lemma AbsorbedCursor(host: Host, s: State, t: Tick, call: Call)
    requires |s.log| > 0 && s.log[|s.log| - 1] == Exchange(call, t.reply)
    requires s.nextCursor == LastCursor(host.context.mode, s.log[..|s.log| - 1])
    ensures Absorb(host, s, t, call).nextCursor == LastCursor(host.context.mode, s.log)
  {
    hide AbsorbOptions, AbsorbDetails, AbsorbSearch, AbsorbRead, SameTrace;
    AbsorbOptionsShape(host, s, t.reply);
    AbsorbDetailsShape(host, s, t.reply, t.evaluatedAt, call.offerId);
    AbsorbSearchShape(s, t.reply);
    AbsorbReadShape(s, t.reply, call);
  }

  lemma AbsorbedListings(host: Host, s: State, reply: Reply, call: Call)
    requires |s.log| > 0 && s.log[|s.log| - 1] == Exchange(call, reply) && call.tool.DiscountOptions?
    requires OptionsAreListed(host, s) && OffersAreSourced(host, s)
    ensures OptionsAreListed(host, AbsorbOptions(host, s, reply))
    ensures OffersAreSourced(host, AbsorbOptions(host, s, reply))
  {
    hide AbsorbOptions, AddOffers, OfferIsSourced, MayUse;
    AbsorbOptionsShape(host, s, reply);
    if reply.OptionsPage? && reply.mode == host.context.mode {
      AddOffersFacts(host, s.options, reply.offers);
      forall offer | offer in reply.offers
        ensures Listed(s.log, host.context.mode, offer)
      {
        assert ListsOffer(s.log[|s.log| - 1], host.context.mode, offer);
      }
    }
  }

  lemma AbsorbedDetails(host: Host, s: State, reply: Reply, evaluatedAt: int, call: Call)
    requires |s.log| > 0 && s.log[|s.log| - 1] == Exchange(call, reply) && call.tool.DiscountDetails?
    requires OptionsAreListed(host, s) && OffersAreSourced(host, s)
    ensures var r := AbsorbDetails(host, s, reply, evaluatedAt, call.offerId);
            OptionsAreListed(host, r) && OffersAreSourced(host, r)
  {
    hide AbsorbDetails, Listed, MayUse;
    AbsorbDetailsShape(host, s, reply, evaluatedAt, call.offerId);
    if reply.DetailsPage? && reply.details.Some? && call.offerId.Text? {
      assert ReadsDetails(s.log[|s.log| - 1], call.offerId.s, reply.details.value);
    }
  }

  lemma AbsorbedEvidence(host: Host, s: State, t: Tick, call: Call)
    requires |s.log| > 0 && s.log[|s.log| - 1] == Exchange(call, t.reply)
    requires OptionsAreListed(host, s) && OffersAreSourced(host, s)
    ensures OptionsAreListed(host, Absorb(host, s, t, call)) && OffersAreSourced(host, Absorb(host, s, t, call))
  {
    hide AbsorbOptions, AbsorbDetails, AbsorbSearch, AbsorbRead, Listed, OfferIsSourced;
    match call.tool
    case DiscountOptions => AbsorbedListings(host, s, t.reply, call);
    case DiscountDetails => AbsorbedDetails(host, s, t.reply, t.evaluatedAt, call);
    case ProductSearch => AbsorbSearchShape(s, t.reply);
    case ProductRead => AbsorbReadShape(s, t.reply, call);
    case _ =>
  }

  /** A read key was found before the read: the gate saw it among the products. */
  lemma AbsorbedProducts(host: Host, s: State, t: Tick, call: Call)
    requires |s.log| > 0 && s.log[|s.log| - 1] == Exchange(call, t.reply)
    requires ProductsAreSourced(s)
    requires call.tool.ProductRead? && NamesProduct(call) ==>
               Found(s.log[..|s.log| - 1], IdentityKey(call.productId.s, VariantOf(call.variantId)))
    ensures ProductsAreSourced(Absorb(host, s, t, call))
  {
    hide AbsorbOptions, AbsorbDetails, AbsorbSearch, AbsorbRead, AddOffers, AddProducts, IdentityKey;
    var x := s.log[|s.log| - 1];
    match call.tool
    case DiscountOptions => AbsorbOptionsShape(host, s, t.reply);
    case DiscountDetails => AbsorbDetailsShape(host, s, t.reply, t.evaluatedAt, call.offerId);
    case ProductSearch =>
      AbsorbSearchShape(s, t.reply);
      AddProductsFacts(s.products, if t.reply.ProductsPage? then t.reply.products else []);
      if t.reply.ProductsPage? {
        forall p | p in t.reply.products
          ensures Found(s.log, IdentityKey(p.productId, p.variantId))
        {
          assert FindsKey(x, IdentityKey(p.productId, p.variantId));
        }
      }
    case ProductRead =>
      AbsorbReadShape(s, t.reply, call);
      if t.reply.OneProduct? && t.reply.product.Some? && ReadsExactly(x, t.reply.product.value) {
        var key := IdentityKey(call.productId.s, VariantOf(call.variantId));
        var k :| 0 <= k < |s.log| - 1 && FindsKey(s.log[..|s.log| - 1][k], key);
        assert FindsKey(s.log[k], key);
        assert ReadAfterSearch(s.log, t.reply.product.value);
      }
    case _ =>
  }

  /** A longer log with the same evidence. */
  lemma EvidenceStaysSourced(host: Host, s: State, r: State, more: seq<Exchange>)
    requires EvidenceIsSourced(host, s) && SameEvidence(s, r) && r.log == s.log + more && |more| <= 1
    ensures EvidenceIsSourced(host, r)
  {
    hide Listed, OfferIsSourced, ProductIsSourced;
    if more == [] {
      assert r.log == s.log;
    } else {
      assert more == [more[0]];
      ProvenanceGrows(host, s.log, more[0]);
    }
  }

  lemma SendKeepsEvidence(host: Host, s: State, t: Tick, call: Call)
    requires EvidenceIsSourced(host, s) && s.failure.None? && GateFor(host, s, t, call) == Open
    ensures EvidenceIsSourced(host, Send(host, s, t, call))
  {
    hide Absorb, Send, HoldsSupported, OptionsAreListed, OffersAreSourced, ProductsAreSourced, IdentityKey;
    SendShape(host, s, t, call);
    var r := Send(host, s, t, call);
    var counted := Counted(Launched(host, s, call), call, t.reply);
    if t.reply.Rejects? {
      EvidenceStaysSourced(host, s, r, []);
    } else {
      EvidenceStaysSourced(host, s, counted, [Exchange(call, t.reply)]);
      if !t.reply.ErrorStatus? {
        AbsorbedEvidence(host, counted, t, call);
        if call.tool.ProductRead? && NamesProduct(call) {
          FoundWhenSeen(s, IdentityKey(call.productId.s, VariantOf(call.variantId)));
          assert counted.log[..|counted.log| - 1] == s.log;
        }
        AbsorbedProducts(host, counted, t, call);
        AbsorbTouchesEvidenceOnly(host, counted, t, call);
        EvidenceStaysSourced(host, Absorb(host, counted, t, call), r, []);
      } else {
        EvidenceStaysSourced(host, counted, r, []);
      }
    }
  }

  lemma FoundWhenSeen(s: State, key: string)
    requires ProductsAreSourced(s) && key in s.products
    ensures Found(s.log, key)
  {}

  /** The invariant reads neither the clock nor the bookkeeping of the nodes. */
  lemma InvIgnores(host: Host, s: State, r: State)
    requires Inv(host, s) && (s.failure.Some? ==> r.failure.Some?) && r.modelSteps <= MAX_MODEL_STEPS
    requires SameEvidence(s, r) && r.mcpCalls == s.mcpCalls && r.optionsCalls == s.optionsCalls
    requires r.searches == s.searches && r.detailReads == s.detailReads && r.seenCalls == s.seenCalls
    requires r.sent == s.sent && r.log == s.log
    ensures Inv(host, r)
  {
    hide CountOf;
    assert r.log == s.log + [];
    EvidenceStaysSourced(host, s, r, []);
  }

  /** What a call leaves alone besides. */
  predicate SameNode(s: State, r: State) {
    r.modelSteps == s.modelSteps && r.tools == s.tools && r.pendingChoice == s.pendingChoice && r.decision == s.decision
  }

  lemma SendKeepsInv(host: Host, s: State, t: Tick, call: Call)
    requires Inv(host, s) && s.failure.None? && GateFor(host, s, t, call) == Open
    ensures Inv(host, Send(host, s, t, call)) && SameNode(s, Send(host, s, t, call))
  {
    hide GateFor, WithinBudgets, NeverTwice, InOrder, EvidenceIsSourced, ReadsAreTracked, Absorb, Send;
    SendKeepsBudgets(host, s, t, call);
    SendNeverRepeats(host, s, t, call);
    SendKeepsOrder(host, s, t, call);
    SendKeepsEvidence(host, s, t, call);
    SendKeepsReads(host, s, t, call);
    SendShape(host, s, t, call);
  }

  lemma InvBoundsSteps(host: Host, s: State)
    requires Inv(host, s)
    ensures s.modelSteps <= MAX_MODEL_STEPS
  {
    hide NeverTwice, InOrder, EvidenceIsSourced, ReadsAreTracked;
  }

  lemma GateIgnoresClock(host: Host, s: State, t: Tick, call: Call, ticks: nat)
    ensures GateFor(host, s.(ticks := ticks), t, call) == GateFor(host, s, t, call)
  {
    hide MayUse, CursorMatches, IdentityKey, NamesProduct;
    assert HoldsSupported(s.(ticks := ticks)) == HoldsSupported(s);
  }

  lemma CallKeepsInv(host: Host, env: nat -> Tick, s: State, call: Call)
    requires Inv(host, s) && s.failure.None?
    ensures Inv(host, OneCall(host, env, s, call)) && SameNode(s, OneCall(host, env, s, call))
  {
    hide Send, GateFor, Inv, FailureFrom;
    var t := env(s.ticks);
    var asked := s.(ticks := s.ticks + 1);
    GateIgnoresClock(host, s, t, call, s.ticks + 1);
    InvBoundsSteps(host, s);
    InvIgnores(host, s, asked);
    match GateFor(host, s, t, call)
    case Open => SendKeepsInv(host, asked, t, call);
    case _ => InvIgnores(host, s, OneCall(host, env, s, call));
  }

  // ---------------------------------------------------------------- a run keeps it

  lemma {:induction false} ExecutionKeepsInv(host: Host, env: nat -> Tick, s: State, calls: seq<Call>, n: nat)
    requires n <= |calls| && Inv(host, s)
    ensures Inv(host, Executed(host, env, s, calls, n)) && SameNode(s, Executed(host, env, s, calls, n))
  {
    hide Inv, OneCall;
    if n > 0 {
      ExecutionKeepsInv(host, env, s, calls, n - 1);
      var before := Executed(host, env, s, calls, n - 1);
      if before.failure.None? { CallKeepsInv(host, env, before, calls[n - 1]); }
    }
  }

  lemma ToolsKeepInv(host: Host, env: nat -> Tick, s: State)
    requires Inv(host, s)
    ensures Inv(host, ExecutedToolCalls(host, env, s)) && SameNode(s, ExecutedToolCalls(host, env, s))
  {
    hide Inv, Executed;
    ExecutionKeepsInv(host, env, s, s.pendingCalls, |s.pendingCalls|);
    var done := Executed(host, env, s, s.pendingCalls, |s.pendingCalls|);
    InvBoundsSteps(host, done);
    InvIgnores(host, done, done.(supported := SupportedIds(done), pendingCalls := []));
  }

  /** The tools saw nothing of it. */
  predicate SameHistory(s: State, r: State) {
    && SameEvidence(s, r) && r.supported == s.supported && r.decision == s.decision
    && r.mcpCalls == s.mcpCalls && r.optionsCalls == s.optionsCalls && r.searches == s.searches
    && r.detailReads == s.detailReads && r.seenCalls == s.seenCalls && r.sent == s.sent && r.log == s.log
  }

  lemma AcceptedShape(s: State, v: Validated)
    ensures SameHistory(s, Accepted(s, v)) && Accepted(s, v).modelSteps == s.modelSteps + 1
  {
    hide FailureFrom, StepRefusal, CallsToRun;
  }

  lemma StepShape(s: State, reply: ModelReply)
    requires s.failure.None?
    ensures SameHistory(s, Stepped(s, reply)) && Stepped(s, reply).modelSteps == s.modelSteps + 1
  {
    hide FailureFrom, ValidatedStep, Accepted;
    if ValidatedStep(reply).Ok? { AcceptedShape(s, ValidatedStep(reply).value); }
  }

  /** What invoking the model can do: fail, or take one step with calls or a choice. */
  lemma InvocationShape(host: Host, env: nat -> Tick, s: State)
    requires s.failure.None? && s.pendingChoice.None? && s.modelSteps <= MAX_MODEL_STEPS
    ensures var r := InvokedModel(host, env, s);
            && SameHistory(s, r) && s.modelSteps <= r.modelSteps <= MAX_MODEL_STEPS
            && (r.failure.Some? || r.modelSteps == s.modelSteps + 1)
  {
    hide Stepped, FailureFrom;
    StepShape(s.(ticks := s.ticks + 1), env(s.ticks).model);
  }

  /** The supersteps that may still follow. */
  function Left(at: Node, s: State): int {
    match at
    case ResolveTools => 2 * MAX_MODEL_STEPS + 3
    case InvokeModel => if s.failure.Some? then 2 else 2 * (MAX_MODEL_STEPS - s.modelSteps) + 2
    case RunTools => 2 * (MAX_MODEL_STEPS - s.modelSteps) + 3
    case FinalizeDecision => 1
    case End => 0
    case Rejected => 0
  }

  /** Where a node may find the state. */
  predicate AtNode(at: Node, s: State) {
    && s.supported == SupportedIds(s)
    && (at == ResolveTools ==> s == INITIAL)
    && (at == InvokeModel ==> s.pendingChoice.None?)
    && (at == RunTools ==> s.failure.None? && s.modelSteps >= 1)
    && (at != End ==> s.decision.None?)
    && (at == End ==> s.decision.Some?)
  }

  lemma ToolsShape(host: Host, env: nat -> Tick, s: State)
    requires s.supported == SupportedIds(s)
    ensures ExecutedToolCalls(host, env, s).supported == SupportedIds(ExecutedToolCalls(host, env, s))
  {
    hide Executed;
  }

  lemma SuperstepKeeps(host: Host, env: nat -> Tick, at: Node, s: State)
    requires Inv(host, s) && AtNode(at, s)
    ensures var r := Superstep(host, env, at, s);
            Inv(host, r.1) && AtNode(r.0, r.1) && Left(r.0, r.1) <= (if Over(at) then 0 else Left(at, s) - 1)
  {
    hide Inv, InvokedModel, ExecutedToolCalls, FinalResult, FailureFrom;
    InvBoundsSteps(host, s);
    match at
    case ResolveTools => InvIgnores(host, s, ResolvedTools(host, s));
    case InvokeModel =>
      if s.failure.None? {
        InvocationShape(host, env, s);
        InvIgnores(host, s, InvokedModel(host, env, s));
        assert SupportedIds(InvokedModel(host, env, s)) == SupportedIds(s);
      } else {
        assert InvokedModel(host, env, s) == s by { InvocationStops(host, env, s); }
      }
    case RunTools =>
      ToolsKeepInv(host, env, s);
      ToolsShape(host, env, s);
    case FinalizeDecision =>
      if FinalResult(host, s).Ok? { InvIgnores(host, s, s.(decision := Some(FinalResult(host, s).value))); }
    case End =>
    case Rejected =>
  }

  lemma InvocationStops(host: Host, env: nat -> Tick, s: State)
    requires s.failure.Some?
    ensures InvokedModel(host, env, s) == s
  {}

  lemma {:induction false} RunKeepsInv(host: Host, env: nat -> Tick, n: nat)
    ensures var r := Run(host, env, n);
            Inv(host, r.1) && AtNode(r.0, r.1) && Left(r.0, r.1) <= (if Over(r.0) then 0 else 19 - n)
  {
    hide Inv, AtNode, Superstep;
    if n == 0 {
      InitiallyEmpty(host);
    } else {
      RunKeepsInv(host, env, n - 1);
      var before := Run(host, env, n - 1);
      SuperstepKeeps(host, env, before.0, before.1);
      if Over(before.0) { OverStays(host, env, before.0, before.1); }
    }
  }

  lemma InitiallyEmpty(host: Host)
    ensures Inv(host, INITIAL) && AtNode(ResolveTools, INITIAL)
  {
    assert SupportedIds(INITIAL) == {};
  }

  lemma OverStays(host: Host, env: nat -> Tick, at: Node, s: State)
    requires Over(at)
    ensures Superstep(host, env, at, s) == (at, s)
  {
    hide InvokedModel, ExecutedToolCalls, ResolvedTools, FinalResult;
  }

  /** Whatever the outside says, the graph ends within 19 supersteps, far from its recursion limit: with
      a decision, or rejected without one. */
  lemma RunEnds(host: Host, env: nat -> Tick, n: nat)
    requires n >= 19
    ensures Over(Run(host, env, n).0) && 19 < RECURSION_LIMIT
    ensures Run(host, env, n).1.decision.Some? <==> Run(host, env, n).0 == End
  {
    hide Inv, Run;
    RunKeepsInv(host, env, n);
    InvBoundsSteps(host, Run(host, env, n).1);
  }

  // ---------------------------------------------------------------- the decision

  /** Some listed offer, with details read for it that name the same offer, stands behind `b`. */
  ghost predicate SourceBound(host: Host, log: seq<Exchange>, b: SourceOffer) {
    exists o: Observed :: OfferIsSourced(host, log, b.offerId, o) && b == Bound(o)
                          && o.offer.redemption == o.details.offer.redemption && o.offer.code == o.details.offer.code
  }

  /** As above, and the discount applies to the product at the moment of the decision. */
  ghost predicate PromotionBound(host: Host, log: seq<Exchange>, b: SourceOffer, product: Product) {
    exists o: Observed :: OfferIsSourced(host, log, b.offerId, o) && b == Bound(o)
                          && Matches(host.library, o.offer, o.details, product, host.finalAt)
  }

  /** What a decision may claim, told from the log of the run alone. */
  ghost predicate Sourced(host: Host, log: seq<Exchange>, d: Decision) {
    match d
    case CheckoutDiscount(offers, group, _, _) =>
      && group.supported && 1 <= |offers| == |group.offerIds|
      && forall k :: 0 <= k < |offers| ==> offers[k].offerId == group.offerIds[k] && SourceBound(host, log, offers[k])
    case AlternativeProduct(offer, product, _, _) =>
      PromotionBound(host, log, offer, product) && ReadAfterSearch(log, product)
    case FailureResult(_, _, _) => true
    case NoVerifiedOffer(_, _, _) => true
  }

  function DecisionOf(r: Result<Decision, Decision>): Decision { if r.Ok? then r.value else r.error }

  lemma CheckoutIsSourced(host: Host, s: State, proposed: seq<string>)
    requires EvidenceIsSourced(host, s)
    ensures CheckoutDecision(host, s, proposed).Some? ==>
              DecisionOf(CheckoutDecision(host, s, proposed).value).CheckoutDiscount?
              && Sourced(host, s.log, DecisionOf(CheckoutDecision(host, s, proposed).value))
  {
    hide OfferIsSourced, OptionsAreListed, ProductsAreSourced;
    var group := host.compatible(s.observed, proposed);
    var offers := BoundOffers(s.observed, group.offerIds);
    if offers.Some? {
      forall k | 0 <= k < |offers.value|
        ensures offers.value[k].offerId == group.offerIds[k] && SourceBound(host, s.log, offers.value[k])
      {
        var id := group.offerIds[k];
        assert Consistent(s.observed, id);
        NamedByItself(host, s.log, id, s.observed[id]);
        assert OfferIsSourced(host, s.log, id, s.observed[id]);
      }
    }
  }

  lemma NamedByItself(host: Host, log: seq<Exchange>, id: string, o: Observed)
    requires OfferIsSourced(host, log, id, o)
    ensures o.offer.offerId == id
  {}

  lemma AlternativeIsSourced(host: Host, s: State, c: Choice)
    requires EvidenceIsSourced(host, s) && c.ChooseProduct?
    ensures ProductDecision(host, s, c).Some? ==>
              DecisionOf(ProductDecision(host, s, c).value).AlternativeProduct?
              && Sourced(host, s.log, DecisionOf(ProductDecision(host, s, c).value))
  {
    hide OfferIsSourced, OptionsAreListed, Matches, Found, IdentityKey;
    if ProductDecision(host, s, c).Some? {
      NamedByItself(host, s.log, c.offerId, s.observed[c.offerId]);
    }
  }

  /** Every claim of the final decision is backed by the log, and the two empty outcomes come only when
      the supported discounts yield nothing either. */
  lemma DecisionIsSourced(host: Host, s: State)
    requires EvidenceIsSourced(host, s)
    ensures Sourced(host, s.log, DecisionOf(FinalResult(host, s)))
    ensures var d := DecisionOf(FinalResult(host, s));
            (d.FailureResult? || d.NoVerifiedOffer?) ==>
              FallbackDecision(host, s).None? && d.FailureResult? == s.failure.Some?
  {
    hide Sourced, EvidenceIsSourced, CheckoutDecision, ProductDecision;
    CheckoutIsSourced(host, s, host.sorted(s.supported));
    match s.pendingChoice {
      case Some(ChooseDiscounts(ids)) => CheckoutIsSourced(host, s, ids);
      case Some(ChooseProduct(o, p, v)) => AlternativeIsSourced(host, s, ChooseProduct(o, p, v));
      case _ =>
    }
    EmptyIsSourced(host, s);
  }

  lemma EmptyIsSourced(host: Host, s: State)
    ensures forall d: Decision :: d.FailureResult? || d.NoVerifiedOffer? ==> Sourced(host, s.log, d)
  {}

  lemma OnlyFinalizingEnds(host: Host, env: nat -> Tick, at: Node, s: State)
    requires !Over(at) && Over(Superstep(host, env, at, s).0)
    ensures at == FinalizeDecision
  {
    hide InvokedModel, ExecutedToolCalls, ResolvedTools, FinalResult;
  }

  /** What a finished run shows: a decision backed by its log, which the schema accepts; or no decision,
      because the schema refuses the one that its state leads to. */
  ghost predicate Concluded(host: Host, at: Node, s: State) {
    if at == End then s.decision.Some? && Sourced(host, s.log, s.decision.value) && host.resultFits(s.decision.value)
    else s.decision.None? && FinalResult(host, s).Err? && !host.resultFits(FinalResult(host, s).error)
  }

  lemma FinalizingDecides(host: Host, env: nat -> Tick, s: State)
    requires EvidenceIsSourced(host, s) && s.decision.None?
    ensures var r := Superstep(host, env, FinalizeDecision, s); Over(r.0) && Concluded(host, r.0, r.1)
  {
    hide Sourced, EvidenceIsSourced, CheckoutDecision, ProductDecision, FinalResult;
    DecisionIsSourced(host, s);
    ResultsAreParsed(host, s);
  }

  lemma ResultsAreParsed(host: Host, s: State)
    ensures FinalResult(host, s).Ok? <==> host.resultFits(DecisionOf(FinalResult(host, s)))
  {
    hide BoundOffers, Matches, IdentityKey;
  }

  /** Every run that is over concludes in one of these two ways. */
  lemma {:induction false} RunDecides(host: Host, env: nat -> Tick, n: nat)
    ensures var r := Run(host, env, n); Over(r.0) ==> Concluded(host, r.0, r.1)
  {
    hide Inv, AtNode, Concluded, Superstep;
    if n > 0 && Over(Run(host, env, n).0) {
      RunDecides(host, env, n - 1);
      var before := Run(host, env, n - 1);
      if Over(before.0) {
        OverStays(host, env, before.0, before.1);
      } else {
        OnlyFinalizingEnds(host, env, before.0, before.1);
        RunKeepsInv(host, env, n - 1);
        InvHoldsEvidence(host, before.1);
        NothingDecided(before.0, before.1);
        FinalizingDecides(host, env, before.1);
      }
    }
  }

  lemma NothingDecided(at: Node, s: State)
    requires AtNode(at, s) && at != End
    ensures s.decision.None?
  {}

  lemma InvHoldsEvidence(host: Host, s: State)
    requires Inv(host, s)
    ensures EvidenceIsSourced(host, s)
  {
    hide WithinBudgets, NeverTwice, InOrder, ReadsAreTracked;
  }

  method InvokeModelNode(host: Host, env: nat -> Tick, s: State) returns (r: State)
    ensures r == InvokedModel(host, env, s)
  {
    hide ValidatedStep, Accepted;
    if s.failure.Some? || s.pendingChoice.Some? { return s; }
    var t := env(s.ticks);
    var asked := s.(ticks := s.ticks + 1);
    if t.aborted.Some? { return Fail(asked, t.aborted.value); }
    if t.now - host.startedAt >= MAX_OUTREACH_DEADLINE_MS {
      return asked.(failure := Some(Failure(DEADLINE, OUTREACH_DEADLINE)));
    }
    if s.modelSteps >= MAX_MODEL_STEPS { return Exhaust(asked, MODEL_STEP_BUDGET_EXHAUSTED); }
    var validated := ValidateModelStep(t.model);
    match validated {
      case Ok(v) => return Accepted(asked, v);
      case Err(error) => return Fail(asked.(modelSteps := s.modelSteps + 1), error);
    }
  }

  method DecideCheckout(host: Host, s: State, proposed: seq<string>) returns (r: Option<Result<Decision, Decision>>)
    ensures r == CheckoutDecision(host, s, proposed)
  {
    var selected := SourceOfferSet(host, s.observed, proposed);
    if selected.None? || !host.offerSetFits(selected.value.1) { return None; }
    var (group, offers) := selected.value;
    return Some(Parsed(host, CheckoutDiscount(offers, group, host.context.binding, s.incomplete)));
  }

  method Decide(host: Host, s: State) returns (r: Result<Decision, Decision>)
    ensures r == FinalResult(host, s)
  {
    hide CheckoutDecision, ProductDecision;
    if s.pendingChoice.Some? && s.pendingChoice.value.ChooseDiscounts? {
      var chosen := DecideCheckout(host, s, s.pendingChoice.value.offerIds);
      if chosen.Some? { return chosen.value; }
    }
    if s.pendingChoice.Some? && s.pendingChoice.value.ChooseProduct? {
      var chosen := ProductDecision(host, s, s.pendingChoice.value);
      if chosen.Some? { return chosen.value; }
    }
    var fallback := DecideCheckout(host, s, host.sorted(s.supported));
    if fallback.Some? { return fallback.value; }
    if s.failure.Some? {
      return Parsed(host, FailureResult(s.failure.value.code, s.failure.value.reason,
                                        s.failure.value.code in {UNAVAILABLE, DEADLINE, BUDGET_EXHAUSTED}));
    }
    return Parsed(host, NoVerifiedOffer(host.context.mode == NO_OFFERS,
                                        host.context.mode == FIXED && |host.context.authorised| == 0, s.incomplete));
  }

  /** One superstep, by the nodes that loop. */
  method Advance(host: Host, env: nat -> Tick, at: Node, s: State) returns (next: Node, r: State)
    ensures (next, r) == Superstep(host, env, at, s)
  {
    hide InvokedModel, ExecutedToolCalls, FinalResult;
    match at
    case ResolveTools => next, r := InvokeModel, ResolvedTools(host, s);
    case InvokeModel =>
      r := InvokeModelNode(host, env, s);
      next := RouteAfterModel(r);
    case RunTools =>
      r := ExecuteToolCalls(host, env, s);
      next := RouteAfterTools(r);
    case FinalizeDecision =>
      var decided := Decide(host, s);
      if decided.Ok? {
        next, r := End, s.(decision := Some(decided.value));
      } else {
        next, r := Rejected, s;
      }
    case _ => next, r := at, s;
  }

  /** The whole run. */
  method Invoke(host: Host, env: nat -> Tick) returns (at: Node, s: State)
    ensures (at, s) == Run(host, env, 19)
    ensures Inv(host, s) && Over(at) && Concluded(host, at, s)
  {
    hide Inv, AtNode, Superstep, Concluded, Run, Left;
    StartOfRun(host, env);
    at, s := ResolveTools, INITIAL;
    var n := 0;
    while !Over(at)
      invariant (at, s) == Run(host, env, n) && n <= 19
      decreases 19 - n
    {
      RunKeepsInv(host, env, n);
      LeftIsPositive(host, at, s);
      NextOfRun(host, env, n);
      at, s := Advance(host, env, at, s);
      n := n + 1;
    }
    OverRemains(host, env, n, 19);
    RunDecides(host, env, 19);
    RunKeepsInv(host, env, 19);
  }

  lemma StartOfRun(host: Host, env: nat -> Tick)
    ensures Run(host, env, 0) == (ResolveTools, INITIAL)
  {}

  lemma NextOfRun(host: Host, env: nat -> Tick, n: nat)
    ensures Run(host, env, n + 1) == Superstep(host, env, Run(host, env, n).0, Run(host, env, n).1)
  {
    hide Superstep;
  }

  lemma LeftIsPositive(host: Host, at: Node, s: State)
    requires Inv(host, s) && !Over(at)
    ensures Left(at, s) >= 1
  {
    hide Inv;
    InvBoundsSteps(host, s);
  }

  lemma {:induction false} OverRemains(host: Host, env: nat -> Tick, n: nat, m: nat)
    requires n <= m && Over(Run(host, env, n).0)
    ensures Run(host, env, m) == Run(host, env, n)
  {
    hide Superstep;
    if n < m {
      OverRemains(host, env, n, m - 1);
      NextOfRun(host, env, m - 1);
      OverStays(host, env, Run(host, env, m - 1).0, Run(host, env, m - 1).1);
    }
  }

  // ---------------------------------------------------------------- identity keys

  /** An identity whose parts cannot be mistaken for the separator or for an absent variant. */
  predicate Clean(productId: string, variantId: Option<string>) {
    '\0' !in productId && (variantId.Some? ==> variantId.value != "")
  }

  lemma SeparatorComesAfter(a: string, b: string)
    requires '\0' !in a
    ensures (a + ['\0'] + b)[|a|] == '\0'
    ensures forall k :: 0 <= k < |a| ==> (a + ['\0'] + b)[k] != '\0'
  {
    forall k | 0 <= k < |a|
      ensures (a + ['\0'] + b)[k] == a[k] && a[k] in a
    {}
  }

  lemma SplitAtFirst(a: string, b: string, c: string, d: string)
    requires '\0' !in a && '\0' !in c && a + ['\0'] + b == c + ['\0'] + d
    ensures a == c && b == d
  {
    var whole, other := a + ['\0'] + b, c + ['\0'] + d;
    SeparatorComesAfter(a, b);
    SeparatorComesAfter(c, d);
    assert |a| == |c|;
    assert whole[..|a|] == a && other[..|c|] == c;
    assert whole[|a| + 1..] == b && other[|c| + 1..] == d;
  }

  /** A text with one separator splits in one way. */
  lemma SplitIsUnique(a: string, b: string, c: string, d: string)
    requires '\0' !in a && '\0' !in b && a + ['\0'] + b == c + ['\0'] + d
    ensures a == c && b == d
  {
    var whole, other := a + ['\0'] + b, c + ['\0'] + d;
    SeparatorComesAfter(a, b);
    forall k | |a| < k < |whole|
      ensures whole[k] != '\0'
    {
      assert whole[k] == b[k - |a| - 1] && b[k - |a| - 1] in b;
    }
    assert other[|c|] == '\0';
    assert |a| == |c|;
    assert whole[..|a|] == a && other[..|c|] == c;
    assert whole[|a| + 1..] == b && other[|c| + 1..] == d;
  }

  /** Among clean identities the key tells products and variants apart. */
  lemma KeyDeterminesCleanIdentity(p: string, v: Option<string>, q: string, w: Option<string>)
    requires Clean(p, v) && Clean(q, w) && IdentityKey(p, v) == IdentityKey(q, w)
    ensures p == q && v == w
  {
    SplitAtFirst(p, if v.Some? then v.value else "", q, if w.Some? then w.value else "");
  }

  /** Among all identities the key of one belongs to it alone exactly when neither part holds the
      separator and the variant is present and not empty. */
  lemma KeyIsUniqueIff(p: string, v: Option<string>)
    ensures (forall q, w :: IdentityKey(q, w) == IdentityKey(p, v) ==> q == p && w == v)
            <==> '\0' !in p && v.Some? && v.value != "" && '\0' !in v.value
  {
    if v.None? {
      assert IdentityKey(p, Some("")) == IdentityKey(p, v);
    } else if v.value == "" {
      assert IdentityKey(p, None) == IdentityKey(p, v);
    } else if '\0' in p {
      var i :| 0 <= i < |p| && p[i] == '\0';
      assert p == p[..i] + ['\0'] + p[i + 1..];
      var w := p[i + 1..] + ['\0'] + v.value;
      assert IdentityKey(p[..i], Some(w)) == IdentityKey(p, v);
    } else if '\0' in v.value {
      var i :| 0 <= i < |v.value| && v.value[i] == '\0';
      assert v.value == v.value[..i] + ['\0'] + v.value[i + 1..];
      assert IdentityKey(p + ['\0'] + v.value[..i], Some(v.value[i + 1..])) == IdentityKey(p, v);
      assert |p + ['\0'] + v.value[..i]| != |p|;
    } else {
      forall q, w | IdentityKey(q, w) == IdentityKey(p, v)
        ensures q == p && w == v
      {
        SplitIsUnique(p, v.value, q, if w.Some? then w.value else "");
      }
    }
  }

  /** So an exactly read clean product was itself returned by an earlier search, if what the searches
      returned was clean too. */
  lemma CleanProductWasFound(log: seq<Exchange>, p: Product)
    requires ReadAfterSearch(log, p) && Clean(p.productId, p.variantId)
    requires forall k, j :: 0 <= k < |log| && log[k].reply.ProductsPage? && 0 <= j < |log[k].reply.products| ==>
               Clean(log[k].reply.products[j].productId, log[k].reply.products[j].variantId)
    ensures exists k, j :: 0 <= k < |log| && log[k].reply.ProductsPage? && 0 <= j < |log[k].reply.products|
                           && log[k].reply.products[j].productId == p.productId
                           && log[k].reply.products[j].variantId == p.variantId
  {
    hide IdentityKey;
    var key := IdentityKey(p.productId, p.variantId);
    var r :| 0 <= r < |log| && ReadsExactly(log[r], p) && Found(log[..r], key);
    var k :| 0 <= k < r && FindsKey(log[..r][k], key);
    assert log[..r][k] == log[k];
    var j :| 0 <= j < |log[k].reply.products|
             && IdentityKey(log[k].reply.products[j].productId, log[k].reply.products[j].variantId) == key;
    var q := log[k].reply.products[j];
    KeyDeterminesCleanIdentity(q.productId, q.variantId, p.productId, p.variantId);
  }

  // ---------------------------------------------------------------- searching again

  /** A search forgets an exact read: it puts every product it returns back to "not read". */
  lemma SearchForgetsReads(s: State, reply: Reply, p: Product)
    requires reply.ProductsPage? && p in reply.products
    ensures var key := IdentityKey(p.productId, p.variantId);
            key in AbsorbSearch(s, reply).products && !AbsorbSearch(s, reply).products[key].exact
  {
    AddedIsNotExact(s.products, reply.products, p);
  }

  lemma {:induction false} AddedIsNotExact(seen: map<string, Seen>, products: seq<Product>, p: Product)
    requires p in products
    ensures var key := IdentityKey(p.productId, p.variantId);
            key in AddProducts(seen, products) && !AddProducts(seen, products)[key].exact
  {
    hide IdentityKey;
    var last := products[|products| - 1];
    if p != last {
      assert p in products[..|products| - 1];
      AddedIsNotExact(seen, products[..|products| - 1], p);
    }
  }

  /** In every run a product counts as exactly read if and only if the latest exchange about its key was
      an accepted read of it, rather than a search that returned it. */
  lemma RunTracksReads(host: Host, env: nat -> Tick, n: nat, key: string)
    ensures var s := Run(host, env, n).1;
            && (key in s.products <==> LatestIsRead(s.log, key).Some?)
            && (key in s.products ==> (s.products[key].exact <==> LatestIsRead(s.log, key) == Some(true)))
  {
    hide Run, AtNode, Left;
    RunKeepsInv(host, env, n);
    InvTracksReads(host, Run(host, env, n).1, key);
  }

  lemma InvTracksReads(host: Host, s: State, key: string)
    requires Inv(host, s)
    ensures KeyIsTracked(s.log, s.products, key)
  {
    hide WithinBudgets, NeverTwice, InOrder, EvidenceIsSourced, KeyIsTracked;
  }

  /** No other check stands in the way of a read. */
  predicate OnlyRepetitionStops(host: Host, s: State, t: Tick) {
    && t.aborted.None? && s.mcpCalls < MAX_MCP_CALLS && t.now - host.startedAt < MAX_OUTREACH_DEADLINE_MS
    && s.detailReads < MAX_PRODUCT_DETAIL_READS && (s.optionsCalls > 0 || DiscountOptions !in s.tools)
  }

  /** A chosen product that is not exactly read is read again by the host.  That read is refused as a
      repetition exactly when a call with its signature was sent before, and then the choice is not
      honoured; otherwise the product becomes promotable again exactly when the tool answers with it. */
  lemma ForgottenIsRefusedIff(host: Host, env: nat -> Tick, s: State, c: Choice)
    requires Inv(host, s) && s.failure.None? && c.ChooseProduct? && s.pendingChoice == Some(c)
    requires IdentityKey(c.productId, c.variantId) in s.products
    requires !s.products[IdentityKey(c.productId, c.variantId)].exact
    requires s.pendingCalls == [ReadCall(c)] && OnlyRepetitionStops(host, s, env(s.ticks))
    ensures var key := IdentityKey(c.productId, c.variantId);
            var r := ExecutedToolCalls(host, env, s);
            if WasSent(host, s, host.signature(ReadCall(c)))
            then r.failure == Some(FailureFrom(Raised(OUTREACH_DUPLICATE_TOOL_CALL))) && r.sent == s.sent
                 && !DecisionOf(FinalResult(host, r)).AlternativeProduct?
            else |r.sent| == |s.sent| + 1 && key in r.products
                 && (r.products[key].exact <==> AcceptsRead(Exchange(ReadCall(c), env(s.ticks).reply), key))
  {
    hide Inv, IdentityKey, OneCall, Executed, LatestIsRead, FailureFrom;
    var key := IdentityKey(c.productId, c.variantId);
    var call := ReadCall(c);
    OneCallOnly(host, env, s);
    InvRemembersCalls(host, s, host.signature(call));
    if WasSent(host, s, host.signature(call)) {
      RepetitionIsRefused(host, env, s, call);
    } else {
      ReadGoesOut(host, env, s, c);
      InvTracksReads(host, s, key);
      CallKeepsInv(host, env, s, call);
      InvTracksReads(host, OneCall(host, env, s, call), key);
      LatestAfterRead(s.log, call, env(s.ticks).reply, key);
    }
  }

  lemma InvRemembersCalls(host: Host, s: State, signature: string)
    requires Inv(host, s)
    ensures signature in s.seenCalls <==> WasSent(host, s, signature)
  {
    hide WithinBudgets, InOrder, EvidenceIsSourced, ReadsAreTracked;
    if WasSent(host, s, signature) {
      var k :| 0 <= k < |s.sent| && host.signature(s.sent[k].call) == signature;
    }
  }

  /** A repeated call is never sent: the run fails with the evidence it had. */
  lemma RepetitionIsRefused(host: Host, env: nat -> Tick, s: State, call: Call)
    requires call.tool.ProductRead? && host.signature(call) in s.seenCalls && OnlyRepetitionStops(host, s, env(s.ticks))
    ensures OneCall(host, env, s, call)
            == s.(ticks := s.ticks + 1, failure := Some(FailureFrom(Raised(OUTREACH_DUPLICATE_TOOL_CALL))))
  {
    hide FailureFrom, Send, IdentityKey, MayUse, HoldsSupported;
  }

  lemma ReadGoesOut(host: Host, env: nat -> Tick, s: State, c: Choice)
    requires c.ChooseProduct? && s.failure.None? && host.signature(ReadCall(c)) !in s.seenCalls
    requires IdentityKey(c.productId, c.variantId) in s.products && OnlyRepetitionStops(host, s, env(s.ticks))
    ensures var r := OneCall(host, env, s, ReadCall(c));
            var reply := env(s.ticks).reply;
            && |r.sent| == |s.sent| + 1
            && r.log == s.log + (if reply.Rejects? then [] else [Exchange(ReadCall(c), reply)])
            && IdentityKey(c.productId, c.variantId) in r.products
  {
    hide Send, HoldsSupported, Absorb, AbsorbOptions, AbsorbDetails, AbsorbSearch, AbsorbRead, IdentityKey, FailureFrom;
    var asked := s.(ticks := s.ticks + 1);
    var t := env(s.ticks);
    var call := ReadCall(c);
    SendShape(host, asked, t, call);
    var counted := Counted(Launched(host, asked, call), call, t.reply);
    AbsorbTouchesEvidenceOnly(host, counted, t, call);
    ReadAbsorbed(host, counted, t, call);
    AbsorbReadShape(counted, t.reply, call);
  }

  lemma ReadAbsorbed(host: Host, s: State, t: Tick, call: Call)
    requires call.tool.ProductRead?
    ensures Absorb(host, s, t, call) == AbsorbRead(s, t.reply, call)
  {
    hide AbsorbRead;
  }

  lemma LatestAfterRead(log: seq<Exchange>, call: Call, reply: Reply, key: string)
    requires call.tool.ProductRead?
    ensures LatestIsRead(log + [Exchange(call, reply)], key)
            == if AcceptsRead(Exchange(call, reply), key) then Some(true) else LatestIsRead(log, key)
    ensures LatestIsRead(log + [], key) == LatestIsRead(log, key)
  {
    assert (log + [Exchange(call, reply)])[..|log|] == log;
    assert log + [] == log;
  }

  lemma OneCallOnly(host: Host, env: nat -> Tick, s: State)
    requires s.failure.None? && |s.pendingCalls| == 1
    ensures Executed(host, env, s, s.pendingCalls, 1) == OneCall(host, env, s, s.pendingCalls[0])
  {
    hide OneCall;
  }

  /** Whatever else is checked, a forgotten product whose read would repeat a call is not promoted. */
  lemma ForgottenProductIsNotPromoted(host: Host, env: nat -> Tick, s: State, c: Choice)
    requires s.failure.None? && c.ChooseProduct? && s.pendingChoice == Some(c) && s.pendingCalls == [ReadCall(c)]
    requires host.signature(ReadCall(c)) in s.seenCalls
    requires IdentityKey(c.productId, c.variantId) in s.products ==>
               !s.products[IdentityKey(c.productId, c.variantId)].exact
    ensures ExecutedToolCalls(host, env, s).failure.Some?
    ensures !DecisionOf(FinalResult(host, ExecutedToolCalls(host, env, s))).AlternativeProduct?
  {
    hide IdentityKey, OneCall, Executed;
    RepeatIsRefused(host, env, s, ReadCall(c));
    OneCallOnly(host, env, s);
  }

  /** A repeated call is never sent: the run fails with the evidence it had. */
  lemma RepeatIsRefused(host: Host, env: nat -> Tick, s: State, call: Call)
    requires host.signature(call) in s.seenCalls
    ensures var r := OneCall(host, env, s, call);
            r.failure.Some? && SameEvidence(s, r) && r.sent == s.sent && r.log == s.log
            && r.pendingChoice == s.pendingChoice
  {
    hide FailureFrom, Send, CursorMatches, NamesProduct, IdentityKey, MayUse, HoldsSupported;
  }

  // ---------------------------------------------------------------- a run that forgets

  const SHIRT := Product("p", Some("v"), None, None, None)

  const CHOSEN := ChooseProduct("o", "p", Some("v"))

  const OFFER := Offer("o", "Ten off", AUTOMATIC, None, None, None, SUPPORTED)

  /** A discount on everything, without conditions. */
  const DETAILS := Details(Some("d"), OFFER,
    Facts(Targeting(EVERYTHING, [], [], [], [], [], [], [], []), true, "ACTIVE", None, [], None, None, None, true,
          Some(false), Some(0), None, Some(0)))

  const TOOLS := {DiscountOptions, DiscountDetails, ProductSearch, ProductRead}

  const LIST_CALL := Call(DiscountOptions, Absent, Absent, Absent, Absent, "list")

  const DETAILS_CALL := Call(DiscountDetails, Absent, Text("o"), Absent, Absent, "details")

  const LISTING := OptionsPage(AI_BEST_APPLICABLE, [OFFER], None, false)

  const PAGE := ProductsPage([SHIRT], None, false)

  function SearchCall(rest: string): Call { Call(ProductSearch, Absent, Absent, Absent, Absent, rest) }

  function Plain(reply: Reply, model: ModelReply): Tick { Tick(None, 0, 0, model, reply, true, true) }

  function Proposal(calls: seq<Call>): ModelReply {
    ModelStep(seq(|calls|, k requires 0 <= k < |calls| => RawCall(calls[k], None)), Some(0), NoText)
  }

  const FIRST := [LIST_CALL, DETAILS_CALL, SearchCall("a")]

  function Second(again: bool): seq<Call> {
    if again then [ReadCall(CHOSEN), SearchCall("b")] else [ReadCall(CHOSEN)]
  }

  /** The model lists the discount, asks for its details and searches; reads what it found and, if `again`,
      searches once more; and then chooses the product. */
  function AnswerAt(again: bool, k: nat): Tick {
    if k == 0 then Plain(Anything, Proposal(FIRST))
    else if k == 1 then Plain(LISTING, NotAStep)
    else if k == 2 then Plain(DetailsPage(Some(DETAILS)), NotAStep)
    else if k == 4 then Plain(Anything, Proposal(Second(again)))
    else if k == 5 then Plain(OneProduct(Some(SHIRT)), NotAStep)
    else if k == (if again then 7 else 6) then
      Plain(Anything, ModelStep([RawCall(Call(FinalTool, Absent, Absent, Absent, Absent, ""), Some(CHOSEN))],
                                Some(0), NoText))
    else Plain(PAGE, NotAStep)
  }

  function Answers(again: bool): nat -> Tick { (k: nat) => AnswerAt(again, k) }

  /** A call's signature is the part that tells its calls apart here, and the checkout evaluation supports
      no discount for the checkout itself. */
  function SmallHost(): Host {
    Host(Context(AI_BEST_APPLICABLE, [], Binding("s", "c", "a", 1, "f")), 0, Ok(TOOLS), Some(0),
         Library((x: string) => x, (x: string) => None), (c: Call) => c.rest, (o, d, t) => false,
         (m, ids) => Group(false, []), (ids: set<string>) => [], (o: seq<SourceOffer>) => true, (d: Decision) => true)
  }

  predicate Untroubled(s: State) {
    && s.failure.None? && !s.incomplete && s.nextCursor.None? && s.supported == {} && s.tools == TOOLS
    && (s.observed == map[] || s.observed == map["o" := Observed(OFFER, DETAILS, false)])
    && s.mcpCalls < 8 && s.searches < 3 && s.detailReads < 3 && s.modelSteps < 4
  }

  /** What every successful exchange leaves behind. */
  function Told(s: State, call: Call, reply: Reply): State {
    s.(ticks := s.ticks + 1, mcpCalls := s.mcpCalls + 1,
       optionsCalls := s.optionsCalls + if call.tool.DiscountOptions? then 1 else 0,
       searches := s.searches + if call.tool.ProductSearch? then 1 else 0,
       detailReads := s.detailReads + if call.tool.ProductRead? then 1 else 0,
       messages := s.messages + [call.tool], seenCalls := s.seenCalls + {call.rest},
       sent := s.sent + [Sent(call, false)], log := s.log + [Exchange(call, reply)])
  }

  function ShirtSeen(s: State, exact: bool): State {
    s.(products := s.products[IdentityKey("p", Some("v")) := Seen(SHIRT, exact)])
  }

  function Listing(s: State): State { Told(s, LIST_CALL, LISTING).(options := map["o" := OFFER]) }

  function Detailed(s: State): State {
    Told(s, DETAILS_CALL, DetailsPage(Some(DETAILS))).(observed := map["o" := Observed(OFFER, DETAILS, false)])
  }

  lemma NoneSupported(s: State)
    requires Untroubled(s)
    ensures !HoldsSupported(s) && SupportedIds(s) == {}
  {}

  lemma ListingIsKept(again: bool, s: State)
    requires Untroubled(s) && "list" !in s.seenCalls && s.ticks == 1 && s.options == map[]
    ensures OneCall(SmallHost(), Answers(again), s, LIST_CALL) == Listing(s)
  {
    hide IdentityKey, FailureFrom, HoldsSupported, SupportedIds;
    NoneSupported(s);
    NoneSupported(s.(ticks := s.ticks + 1));
    assert [OFFER][..0] == [];
    assert AddOffers(SmallHost(), s.options, []) == s.options;
    assert AddOffers(SmallHost(), s.options, [OFFER]) == map["o" := OFFER];
  }

  lemma DetailsAreKept(again: bool, s: State)
    requires Untroubled(s) && "details" !in s.seenCalls && s.ticks == 2 && s.options == map["o" := OFFER]
    requires s.observed == map[] && s.optionsCalls > 0
    ensures OneCall(SmallHost(), Answers(again), s, DETAILS_CALL) == Detailed(s)
  {
    hide IdentityKey, FailureFrom, HoldsSupported, SupportedIds;
    NoneSupported(s);
    NoneSupported(s.(ticks := s.ticks + 1));
  }

  lemma SearchFindsTheShirt(again: bool, s: State, rest: string)
    requires Untroubled(s) && rest !in s.seenCalls && s.optionsCalls > 0 && (s.ticks == 3 || (again && s.ticks == 6))
    ensures OneCall(SmallHost(), Answers(again), s, SearchCall(rest))
            == ShirtSeen(Told(s, SearchCall(rest), PAGE), false)
  {
    hide IdentityKey, FailureFrom, HoldsSupported, SupportedIds;
    NoneSupported(s);
    NoneSupported(s.(ticks := s.ticks + 1));
    assert AddProducts(s.products, []) == s.products;
    assert [SHIRT][..0] == [];
  }

  lemma ReadReturnsTheShirt(again: bool, s: State)
    requires Untroubled(s) && "" !in s.seenCalls && s.ticks == 5 && s.optionsCalls > 0
    requires IdentityKey("p", Some("v")) in s.products
    ensures OneCall(SmallHost(), Answers(again), s, ReadCall(CHOSEN))
            == ShirtSeen(Told(s, ReadCall(CHOSEN), OneProduct(Some(SHIRT))), true)
  {
    hide IdentityKey, FailureFrom, HoldsSupported, SupportedIds;
    NoneSupported(s);
    NoneSupported(s.(ticks := s.ticks + 1));
  }

  lemma ModelProposes(again: bool, s: State, calls: seq<Call>)
    requires Untroubled(s) && s.pendingChoice.None? && 1 <= |calls| <= 3
    requires AnswerAt(again, s.ticks) == Plain(Anything, Proposal(calls))
    requires forall k :: 0 <= k < |calls| ==> calls[k].tool in TOOLS
    ensures InvokedModel(SmallHost(), Answers(again), s)
            == s.(ticks := s.ticks + 1, modelSteps := s.modelSteps + 1, pendingCalls := calls)
  {
    hide IdentityKey, FailureFrom, AnswerAt;
    var raw := Proposal(calls).calls;
    ValidatedCallsMeans(raw, |raw|);
    var v := ValidatedStep(Proposal(calls));
    assert v.Ok? && v.value.choice == None;
    assert v.value.calls == calls;
  }

  lemma ModelChooses(again: bool, s: State)
    requires Untroubled(s) && s.pendingChoice.None? && s.optionsCalls > 0 && s.ticks == (if again then 7 else 6)
    requires IdentityKey("p", Some("v")) in s.products
    ensures InvokedModel(SmallHost(), Answers(again), s)
            == s.(ticks := s.ticks + 1, modelSteps := s.modelSteps + 1, pendingChoice := Some(CHOSEN),
                  pendingCalls := if s.products[IdentityKey("p", Some("v"))].exact then [] else [ReadCall(CHOSEN)])
  {
    hide IdentityKey, FailureFrom;
    var raw := AnswerAt(again, s.ticks).model.calls;
    ValidatedCallsMeans(raw, 1);
    var v := ValidatedStep(AnswerAt(again, s.ticks).model);
    assert v.Ok? && v.value == Validated([], Some(CHOSEN));
  }

  // the states along the way

  const READY := INITIAL.(tools := TOOLS)

  const PROPOSED := READY.(ticks := 1, modelSteps := 1, pendingCalls := FIRST)

  function FirstRound(): State {
    var known := Detailed(Listing(PROPOSED));
    ShirtSeen(Told(known, SearchCall("a"), PAGE), false).(pendingCalls := [])
  }

  function ProposedAgain(again: bool): State {
    FirstRound().(ticks := 5, modelSteps := 2, pendingCalls := Second(again))
  }

  function SecondRound(again: bool): State {
    var r := ShirtSeen(Told(ProposedAgain(again), ReadCall(CHOSEN), OneProduct(Some(SHIRT))), true);
    (if again then ShirtSeen(Told(r, SearchCall("b"), PAGE), false) else r).(pendingCalls := [])
  }

  function Choosing(again: bool): State {
    var s := SecondRound(again);
    s.(ticks := s.ticks + 1, modelSteps := 3, pendingChoice := Some(CHOSEN),
       pendingCalls := if again then [ReadCall(CHOSEN)] else [])
  }

  lemma FirstRoundRuns(again: bool)
    ensures ExecutedToolCalls(SmallHost(), Answers(again), PROPOSED) == FirstRound()
  {
    hide OneCall, IdentityKey, SupportedIds, HoldsSupported;
    var host, env := SmallHost(), Answers(again);
    var listed, known := Listing(PROPOSED), Detailed(Listing(PROPOSED));
    ListingIsKept(again, PROPOSED);
    DetailsAreKept(again, listed);
    SearchFindsTheShirt(again, known, "a");
    assert Executed(host, env, PROPOSED, FIRST, 0) == PROPOSED;
    assert Executed(host, env, PROPOSED, FIRST, 1) == listed;
    assert Executed(host, env, PROPOSED, FIRST, 2) == known;
    NoneSupported(Executed(host, env, PROPOSED, FIRST, 3));
  }

  /** How things stand once the first proposals have run and the second are made. */
  lemma AfterFirstRound(again: bool)
    ensures var s := ProposedAgain(again);
            && FirstRound().failure.None? && FirstRound().pendingChoice.None?
            && Untroubled(s) && s.failure.None? && s.pendingCalls == Second(again) && s.pendingChoice.None?
            && s.ticks == 5 && s.modelSteps == 2 && s.mcpCalls == 3 && s.searches == 1 && s.detailReads == 0
            && s.optionsCalls > 0 && "" !in s.seenCalls && "b" !in s.seenCalls
            && s.observed == map["o" := Observed(OFFER, DETAILS, false)]
            && IdentityKey("p", Some("v")) in s.products
  {
    hide IdentityKey;
  }

  lemma SecondRoundRuns(again: bool)
    ensures ExecutedToolCalls(SmallHost(), Answers(again), ProposedAgain(again)) == SecondRound(again)
  {
    hide OneCall, IdentityKey, SupportedIds, HoldsSupported, ProposedAgain;
    AfterFirstRound(again);
    var host, env, s := SmallHost(), Answers(again), ProposedAgain(again);
    var r := ShirtSeen(Told(s, ReadCall(CHOSEN), OneProduct(Some(SHIRT))), true);
    ReadReturnsTheShirt(again, s);
    assert Executed(host, env, s, Second(again), 0) == s;
    assert Executed(host, env, s, Second(again), 1) == r;
    if again { SearchFindsTheShirt(again, r, "b"); }
    NoneSupported(Executed(host, env, s, Second(again), |Second(again)|));
  }

  /** How things stand before and after the choice. */
  lemma AfterSecondRound(again: bool)
    ensures var s := SecondRound(again);
            var key := IdentityKey("p", Some("v"));
            && Untroubled(s) && s.failure.None? && s.pendingChoice.None? && s.optionsCalls > 0
            && s.ticks == (if again then 7 else 6) && s.modelSteps == 2 && "" in s.seenCalls
            && s.observed == map["o" := Observed(OFFER, DETAILS, false)]
            && key in s.products && s.products[key] == Seen(SHIRT, !again)
            && Choosing(again).failure.None? && Choosing(again).pendingChoice == Some(CHOSEN)
            && Choosing(again).pendingCalls == (if again then [ReadCall(CHOSEN)] else [])
            && Choosing(again).products == s.products
  {
    hide IdentityKey, ProposedAgain;
    AfterFirstRound(again);
  }

  /** Both runs up to the choice. */
  lemma RunToTheChoice(again: bool)
    ensures Run(SmallHost(), Answers(again), 6) == (if again then RunTools else FinalizeDecision, Choosing(again))
  {
    hide InvokedModel, ExecutedToolCalls, IdentityKey, Run, AnswerAt, FirstRound, SecondRound, ProposedAgain,
         Untroubled;
    var host, env := SmallHost(), Answers(again);
    AfterFirstRound(again);
    AfterSecondRound(again);
    StartOfRun(host, env);
    NextOfRun(host, env, 0);
    NextOfRun(host, env, 1);
    FirstProposal(again);
    NextOfRun(host, env, 2);
    FirstRoundRuns(again);
    NextOfRun(host, env, 3);
    SecondProposal(again);
    NextOfRun(host, env, 4);
    SecondRoundRuns(again);
    NextOfRun(host, env, 5);
    ModelChooses(again, SecondRound(again));
  }

  lemma FirstProposal(again: bool)
    ensures InvokedModel(SmallHost(), Answers(again), READY) == PROPOSED
  {
    hide InvokedModel, IdentityKey;
    ModelProposes(again, READY, FIRST);
  }

  lemma SecondProposal(again: bool)
    ensures InvokedModel(SmallHost(), Answers(again), FirstRound()) == ProposedAgain(again)
  {
    hide InvokedModel, IdentityKey;
    ModelProposes(again, FirstRound(), Second(again));
  }

  function AfterRefusal(s: State): State {
    s.(ticks := s.ticks + 1, pendingCalls := [], failure := Some(Failure(UNAVAILABLE, OUTREACH_OPERATION_FAILED)))
  }

  lemma RereadIsRefused()
    ensures ExecutedToolCalls(SmallHost(), Answers(true), Choosing(true)) == AfterRefusal(Choosing(true))
  {
    hide OneCall, IdentityKey, SupportedIds, HoldsSupported, Choosing, Executed;
    var s := Choosing(true);
    ChoosingAgain();
    OneCallOnly(SmallHost(), Answers(true), s);
    RepetitionIsRefused(SmallHost(), Answers(true), s, ReadCall(CHOSEN));
    NoneSupportedAfterAll(OneCall(SmallHost(), Answers(true), s, ReadCall(CHOSEN)));
  }

  lemma ChoosingAgain()
    ensures var s := Choosing(true);
            && s.failure.None? && s.pendingCalls == [ReadCall(CHOSEN)] && "" in s.seenCalls && s.supported == {}
            && s.observed == map["o" := Observed(OFFER, DETAILS, false)] && s.ticks == 8
            && OnlyRepetitionStops(SmallHost(), s, AnswerAt(true, 8))
  {
    hide IdentityKey, ProposedAgain;
    AfterFirstRound(true);
  }

  lemma NoneSupportedAfterAll(s: State)
    requires s.observed == map["o" := Observed(OFFER, DETAILS, false)]
    ensures SupportedIds(s) == {}
  {}

  lemma RefusalDecides()
    ensures FinalResult(SmallHost(), AfterRefusal(Choosing(true)))
            == Ok(FailureResult(UNAVAILABLE, OUTREACH_OPERATION_FAILED, true))
  {
    hide IdentityKey, Matches, BoundOffers, SecondRound;
    AfterSecondRound(true);
  }

  lemma DiscountMatchesTheShirt()
    ensures Matches(SmallHost().library, OFFER, DETAILS, SHIRT, SmallHost().finalAt)
  {}

  lemma PromotionDecides()
    ensures FinalResult(SmallHost(), Choosing(false))
            == Ok(AlternativeProduct(SourceOffer("o", "d", AUTOMATIC, None), SHIRT, SmallHost().context.binding, false))
  {
    hide IdentityKey, Matches, BoundOffers, SecondRound;
    AfterSecondRound(false);
    DiscountMatchesTheShirt();
  }

  /** Without a search between the reading of the shirt and its choice, it is promoted. */
  lemma KeptRun()
    ensures Run(SmallHost(), Answers(false), 7)
            == (End, Choosing(false).(decision := Some(
                  AlternativeProduct(SourceOffer("o", "d", AUTOMATIC, None), SHIRT, SmallHost().context.binding,
                                     false))))
  {
    hide InvokedModel, ExecutedToolCalls, IdentityKey, Run, FinalResult, AnswerAt, Choosing;
    RunToTheChoice(false);
    NextOfRun(SmallHost(), Answers(false), 6);
    PromotionDecides();
  }

  /** With one, the host's own read is refused and the run ends in a failure. */
  lemma LostRun()
    ensures Run(SmallHost(), Answers(true), 8)
            == (End, AfterRefusal(Choosing(true)).(decision :=
                  Some(FailureResult(UNAVAILABLE, OUTREACH_OPERATION_FAILED, true))))
  {
    hide InvokedModel, ExecutedToolCalls, IdentityKey, Run, FinalResult, AnswerAt, Choosing;
    RunToTheChoice(true);
    NextOfRun(SmallHost(), Answers(true), 6);
    RereadIsRefused();
    NextOfRun(SmallHost(), Answers(true), 7);
    RefusalDecides();
  }

  /** A search between the reading of a product and its choice loses the promotion.  Without it the run
      promotes the shirt under a discount that was listed, read and matches; with it the shirt is found
      again, the host's own read is refused as a repetition, and the run ends in a failure. */
  lemma ForgetfulRun()
    ensures var key := IdentityKey("p", Some("v"));
            var kept := Run(SmallHost(), Answers(false), 7);
            var lost := Run(SmallHost(), Answers(true), 8);
            && kept.0 == End && lost.0 == End
            && kept.1.decision == Some(AlternativeProduct(SourceOffer("o", "d", AUTOMATIC, None), SHIRT,
                                                          SmallHost().context.binding, false))
            && lost.1.decision == Some(FailureResult(UNAVAILABLE, OUTREACH_OPERATION_FAILED, true))
            && lost.1.log == kept.1.log + [Exchange(SearchCall("b"), PAGE)]
            && kept.1.pendingChoice == lost.1.pendingChoice == Some(CHOSEN)
            && LatestIsRead(kept.1.log, key) == Some(true) && LatestIsRead(lost.1.log, key) == Some(false)
  {
    hide Superstep, IdentityKey, Run, AnswerAt, LatestIsRead, Choosing, SecondRound, FirstRound, ProposedAgain;
    KeptRun();
    LostRun();
    AfterSecondRound(false);
    AfterSecondRound(true);
    OneMoreSearch();
    RunTracksReads(SmallHost(), Answers(false), 7, IdentityKey("p", Some("v")));
    RunTracksReads(SmallHost(), Answers(true), 8, IdentityKey("p", Some("v")));
    assert !LatestIsRead(Run(SmallHost(), Answers(true), 8).1.log, IdentityKey("p", Some("v"))).value;
  }

  lemma OneMoreSearch()
    ensures Choosing(true).log == Choosing(false).log + [Exchange(SearchCall("b"), PAGE)]
  {
    hide IdentityKey;
  }
}
