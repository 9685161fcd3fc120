/** Recipe validation, the one-retry policy, and the hard caps on counts. */
module Recipes {
  import opened Seqs
  import opened Wire

  const MAX_ASSETS_PER_CATEGORY := 2000
  const MAX_ASSETS_TOTAL := 5000

  // ---- validateRecipe ----

  datatype Defect =
    | EmptyRecipe
    | UnknownCategory(category: string)
    | RepeatedCategory(category: string)
    | NegativeCount(category: string, count: int)

  /** What is wrong with item k, seen after the items before it. */
  function DefectAt(items: seq<CategoryRecipe>, man: Manifest, k: nat): Option<Defect>
    requires k < |items|
  {
    var it := items[k];
    if it.category !in man then Some(UnknownCategory(it.category))
    else if exists j | 0 <= j < k :: items[j].category == it.category then Some(RepeatedCategory(it.category))
    else if it.count < 0 then Some(NegativeCount(it.category, it.count))
    else None
  }

  /** A recipe the rest of the pipeline may rely on. */
  ghost predicate ValidRecipe(items: seq<CategoryRecipe>, man: Manifest) {
    && items != []
    && (forall it | it in items :: it.category in man && it.count >= 0)
    && DistinctCategories(items)
  }

  /** The verdict on a recipe: the first defect in item order, if any. */
  function Verdict(items: seq<CategoryRecipe>, man: Manifest): Option<Defect> {
    if items == [] then Some(EmptyRecipe) else FirstDefect(items, man, 0)
  }

  function FirstDefect(items: seq<CategoryRecipe>, man: Manifest, k: nat): Option<Defect>
    requires k <= |items|
    decreases |items| - k
  {
    if k == |items| then None
    else if DefectAt(items, man, k).Some? then DefectAt(items, man, k)
    else FirstDefect(items, man, k + 1)
  }

  lemma {:induction false} FirstDefectIsFirst(items: seq<CategoryRecipe>, man: Manifest, k: nat)
    requires k <= |items|
    ensures FirstDefect(items, man, k).None? <==> forall i | k <= i < |items| :: DefectAt(items, man, i).None?
    decreases |items| - k
  {
    if k < |items| {
      FirstDefectIsFirst(items, man, k + 1);
    }
  }

  /** A recipe passes exactly when it is valid. */
  lemma PassesIffValid(items: seq<CategoryRecipe>, man: Manifest)
    ensures Verdict(items, man).None? <==> ValidRecipe(items, man)
  {
    if items != [] {
      FirstDefectIsFirst(items, man, 0);
      if Verdict(items, man).None? {
        forall i | 0 <= i < |items| ensures items[i].category in man && items[i].count >= 0 {
          assert DefectAt(items, man, i).None?;
        }
        forall i, j | 0 <= i < j < |items| ensures items[i].category != items[j].category {
          assert DefectAt(items, man, j).None?;
        }
      }
    }
  }

  /** What a reported defect says of item k, all items before it being fine. */
  ghost predicate DefectFits(items: seq<CategoryRecipe>, man: Manifest, k: nat, d: Defect)
    requires k < |items|
  {
    var it := items[k];
    && (forall i | 0 <= i < k :: items[i].category in man && items[i].count >= 0)
    && DistinctCategories(items[..k])
    && match d
       case EmptyRecipe => false
       case UnknownCategory(c) => c == it.category && c !in man
       case RepeatedCategory(c) =>
         c == it.category && c in man && exists i :: 0 <= i < k && items[i].category == c
       case NegativeCount(c, n) =>
         c == it.category && c in man && n == it.count < 0 && forall i | 0 <= i < k :: items[i].category != c
  }

  lemma {:induction false} FirstDefectFits(items: seq<CategoryRecipe>, man: Manifest, k: nat)
    requires k <= |items| && forall i | 0 <= i < k :: DefectAt(items, man, i).None?
    ensures var d := FirstDefect(items, man, k);
            d.Some? ==> exists j :: 0 <= j < |items| && DefectFits(items, man, j, d.value)
    decreases |items| - k
  {
    if k < |items| {
      if DefectAt(items, man, k).None? {
        FirstDefectFits(items, man, k + 1);
      } else {
        forall i | 0 <= i < k ensures items[i].category in man && items[i].count >= 0 {
          assert DefectAt(items, man, i).None?;
        }
        forall i, j | 0 <= i < j < k ensures items[..k][i].category != items[..k][j].category {
          assert DefectAt(items, man, j).None?;
        }
        assert DefectFits(items, man, k, DefectAt(items, man, k).value);
      }
    }
  }

  /** The verdict names the first item that is wrong, and what is wrong with it. */
  lemma VerdictNamesDefect(items: seq<CategoryRecipe>, man: Manifest)
    ensures Verdict(items, man) == Some(EmptyRecipe) <==> items == []
    ensures var d := Verdict(items, man);
            d.Some? && items != [] ==> exists k :: 0 <= k < |items| && DefectFits(items, man, k, d.value)
  {
    if items != [] {
      FirstDefectFits(items, man, 0);
    }
  }

  method ValidateRecipe(items: seq<CategoryRecipe>, man: Manifest) returns (defect: Option<Defect>)
    ensures defect == Verdict(items, man)
    ensures defect.None? <==> ValidRecipe(items, man)
  {
    PassesIffValid(items, man);
    if |items| == 0 {
      return Some(EmptyRecipe);
    }
    var seen: set<string> := {};
    for k := 0 to |items|
      invariant forall c :: c in seen <==> exists j | 0 <= j < k :: items[j].category == c
      invariant FirstDefect(items, man, 0) == FirstDefect(items, man, k)
    {
      var it := items[k];
      if it.category !in man {
        return Some(UnknownCategory(it.category));
      }
      if it.category in seen {
        return Some(RepeatedCategory(it.category));
      }
      seen := seen + {it.category};
      if it.count < 0 {
        return Some(NegativeCount(it.category, it.count));
      }
    }
    return None;
  }

  // ---- recipeWithRetry ----

  /** The answers of one model call. */
  datatype LlmReply =
    | Recipe(items: seq<CategoryRecipe>)
    | InvalidOutput(detail: string)
    | DeadlineExceeded
    | Cancelled
    | Fault

  /** The errors that reportRecipeError tells apart. */
  datatype RecipeFailure = Invalid | TimedOut | Stopped | Broken

  /** What a call's answer means for the attempt loop. */
  datatype AfterCall = Accept(items: seq<CategoryRecipe>) | RetryOrFail(feedback: Feedback) | GiveUp(why: RecipeFailure)

  /** The error text handed to the next call: none on the first one. */
  datatype Feedback = NoFeedback | FromValidation(defect: Defect) | FromModel(detail: string)

  function Judge(reply: LlmReply, man: Manifest): AfterCall {
    match reply
    case Recipe(items) =>
      var defect := Verdict(items, man);
      if defect.None? then Accept(items) else RetryOrFail(FromValidation(defect.value))
    case InvalidOutput(detail) => RetryOrFail(FromModel(detail))
    case DeadlineExceeded => GiveUp(TimedOut)
    case Cancelled => GiveUp(Stopped)
    case Fault => GiveUp(Broken)
  }

  datatype RecipeResult = Got(items: seq<CategoryRecipe>) | NoRecipe(why: RecipeFailure)

  /** What the attempt loop makes of the answer to its last call. */
  function Conclude(last: AfterCall): RecipeResult {
    match last
    case Accept(items) => Got(items)
    case RetryOrFail(_) => NoRecipe(Invalid)
    case GiveUp(why) => NoRecipe(why)
  }

  /** The answers asked for: at most two, and a second one only after a first that calls for a retry. */
  predicate Asked(replies: seq<LlmReply>, man: Manifest) {
    |replies| <= 2 && (|replies| == 2 ==> Judge(replies[0], man).RetryOrFail?)
  }

  /** What the attempt loop makes of the answers so far; nothing while it has another call to make. */
  function LoopOutcome(replies: seq<LlmReply>, man: Manifest): Option<RecipeResult> {
    if replies == [] then None
    else
      var last := Judge(replies[|replies| - 1], man);
      if last.RetryOrFail? && |replies| < 2 then None else Some(Conclude(last))
  }

  /** The answers of a model that answers call k, given feedback f, with model(k, f). */
  function Replies(model: (nat, Feedback) -> LlmReply, man: Manifest): seq<LlmReply> {
    var first := Judge(model(0, NoFeedback), man);
    if first.RetryOrFail? then [model(0, NoFeedback), model(1, first.feedback)] else [model(0, NoFeedback)]
  }

  lemma AcceptedIsValid(reply: LlmReply, man: Manifest)
    ensures var call := Judge(reply, man); call.Accept? ==> ValidRecipe(call.items, man)
  {
    if reply.Recipe? {
      PassesIffValid(reply.items, man);
    }
  }

  /** The reply is schema-invalid: output that did not parse, or a recipe that is not valid. */
  ghost predicate SchemaInvalid(reply: LlmReply, man: Manifest) {
    reply.InvalidOutput? || (reply.Recipe? && !ValidRecipe(reply.items, man))
  }

  /** How a reply that ends the loop at once ends it. */
  ghost predicate EndsAtOnce(reply: LlmReply, man: Manifest, result: RecipeResult) {
    match reply
    case Recipe(items) => ValidRecipe(items, man) && result == Got(items)
    case InvalidOutput(_) => false
    case DeadlineExceeded => result == NoRecipe(TimedOut)
    case Cancelled => result == NoRecipe(Stopped)
    case Fault => result == NoRecipe(Broken)
  }

  /** What the next call is told about a schema-invalid reply. */
  ghost predicate Tells(reply: LlmReply, man: Manifest, feedback: Feedback) {
    match reply
    case InvalidOutput(detail) => feedback == FromModel(detail)
    case Recipe(items) => Verdict(items, man).Some? && feedback == FromValidation(Verdict(items, man).value)
    case _ => false
  }

  /** A judgement in terms of the reply: schema-invalid output is retried with its detail, anything else ends the loop. */
  lemma JudgeMeans(reply: LlmReply, man: Manifest)
    ensures var call := Judge(reply, man);
            && (call.RetryOrFail? <==> SchemaInvalid(reply, man))
            && (call.RetryOrFail? ==> Tells(reply, man, call.feedback) && Conclude(call) == NoRecipe(Invalid))
            && (!call.RetryOrFail? ==> EndsAtOnce(reply, man, Conclude(call)))
  {
    if reply.Recipe? {
      PassesIffValid(reply.items, man);
    }
  }

  /**
   The outcome of the loop in terms of the replies: the first one ends it unless it is schema-invalid; then
   the second one does, as a failure if it is schema-invalid too.
   */
  ghost predicate LoopEnds(replies: seq<LlmReply>, man: Manifest, result: RecipeResult) {
    if |replies| == 1 then EndsAtOnce(replies[0], man, result)
    else && |replies| == 2 && SchemaInvalid(replies[0], man)
         && if SchemaInvalid(replies[1], man) then result == NoRecipe(Invalid) else EndsAtOnce(replies[1], man, result)
  }

  lemma OutcomeMeans(replies: seq<LlmReply>, man: Manifest)
    requires Asked(replies, man)
    ensures var outcome := LoopOutcome(replies, man);
            if outcome.Some? then LoopEnds(replies, man, outcome.value)
            else replies == [] || (|replies| == 1 && SchemaInvalid(replies[0], man))
  {
    if replies != [] {
      JudgeMeans(replies[0], man);
      JudgeMeans(replies[|replies| - 1], man);
    }
  }

  /** The attempt loop against a model that answers call k, given feedback f, with model(k, f). */
  method RecipeWithRetry(model: (nat, Feedback) -> LlmReply, man: Manifest) returns (result: RecipeResult, calls: nat)
    ensures var first := Judge(model(0, NoFeedback), man);
            if first.RetryOrFail?
            then calls == 2 && result == Conclude(Judge(model(1, first.feedback), man))
            else calls == 1 && result == Conclude(first)
    ensures calls == |Replies(model, man)| && Asked(Replies(model, man), man)
    ensures LoopOutcome(Replies(model, man), man) == Some(result)
    ensures calls == if SchemaInvalid(model(0, NoFeedback), man) then 2 else 1
    ensures calls == 1 ==> EndsAtOnce(model(0, NoFeedback), man, result)
    ensures calls == 2 ==>
              exists told ::
                && Tells(model(0, NoFeedback), man, told)
                && if SchemaInvalid(model(1, told), man) then result == NoRecipe(Invalid)
                   else EndsAtOnce(model(1, told), man, result)
    ensures result.Got? ==> ValidRecipe(result.items, man)
  {
    calls := 0;
    var prior := NoFeedback;
    ghost var first := Judge(model(0, NoFeedback), man);
    JudgeMeans(model(0, NoFeedback), man);
    if first.RetryOrFail? {
      JudgeMeans(model(1, first.feedback), man);
    }
    while calls < 2
      invariant calls <= 2
      invariant calls == 0 ==> prior == NoFeedback
      invariant calls >= 1 ==> first.RetryOrFail?
      invariant calls == 1 ==> prior == first.feedback
      invariant calls == 2 ==> Judge(model(1, first.feedback), man).RetryOrFail?
    {
      var reply := model(calls, prior);
      calls := calls + 1;
      match reply {
        case Recipe(items) =>
          var defect := ValidateRecipe(items, man);
          if defect.None? {
            return Got(items), calls;
          }
          prior := FromValidation(defect.value);
        case InvalidOutput(detail) => prior := FromModel(detail);
        case DeadlineExceeded => return NoRecipe(TimedOut), calls;
        case Cancelled => return NoRecipe(Stopped), calls;
        case Fault => return NoRecipe(Broken), calls;
      }
    }
    result := NoRecipe(Invalid);
  }

  // ---- clampCounts ----

  function Capped(it: CategoryRecipe): CategoryRecipe {
    it.(count := if it.count > MAX_ASSETS_PER_CATEGORY then MAX_ASSETS_PER_CATEGORY else it.count)
  }

  function CappedAll(items: seq<CategoryRecipe>): seq<CategoryRecipe> {
    Map((it: CategoryRecipe) => Capped(it), items)
  }

  /** Conversion of a float to int: truncation toward zero. */
  function Truncate(x: real): int {
    if x >= 0.0 then x.Floor else -(-x).Floor
  }

  function Portion(count: int, scale: real): int {
    Truncate(count as real * scale)
  }

  /** The proportional count, with a positive count never rounded away. */
  function ScaledCount(count: int, scale: real): int {
    var c := Portion(count, scale);
    if count > 0 && c < 1 then 1 else c
  }

  function ScaledAll(items: seq<CategoryRecipe>, scale: real): seq<CategoryRecipe> {
    Map((it: CategoryRecipe) => it.(count := ScaledCount(it.count, scale)), items)
  }

  function ScaleFor(total: int): real
    requires total != 0
  {
    MAX_ASSETS_TOTAL as real / total as real
  }

  function Clamped(items: seq<CategoryRecipe>): (r: seq<CategoryRecipe>)
    ensures |r| == |items|
    ensures forall i | 0 <= i < |items| :: r[i] == items[i].(count := r[i].count)
  {
    var capped := CappedAll(items);
    var total := TotalCount(capped);
    if total <= MAX_ASSETS_TOTAL then capped else ScaledAll(capped, ScaleFor(total))
  }

  /** The first loop: caps every count and adds up the capped counts. */
  method CapEach(items: array<CategoryRecipe>) returns (total: int)
    modifies items
    ensures items[..] == CappedAll(old(items[..]))
    ensures total == TotalCount(CappedAll(old(items[..])))
  {
    ghost var was := items[..];
    total := 0;
    for i := 0 to items.Length
      invariant forall j | 0 <= j < i :: items[j] == Capped(was[j])
      invariant forall j | i <= j < items.Length :: items[j] == was[j]
      invariant total == TotalCount(CappedAll(was[..i]))
    {
      if items[i].count > MAX_ASSETS_PER_CATEGORY {
        items[i] := items[i].(count := MAX_ASSETS_PER_CATEGORY);
      }
      total := total + items[i].count;
      assert CappedAll(was[..i + 1]) == CappedAll(was[..i]) + [Capped(was[i])];
      TotalPush(CappedAll(was[..i]), Capped(was[i]));
    }
    assert was[..items.Length] == was;
  }

  /** The second loop: scales every count. */
  method ScaleEach(items: array<CategoryRecipe>, scale: real)
    modifies items
    ensures items[..] == ScaledAll(old(items[..]), scale)
  {
    ghost var was := items[..];
    for i := 0 to items.Length
      invariant forall j | 0 <= j < i :: items[j] == was[j].(count := ScaledCount(was[j].count, scale))
      invariant forall j | i <= j < items.Length :: items[j] == was[j]
    {
      var c := Portion(items[i].count, scale);
      if items[i].count > 0 && c < 1 {
        c := 1;
      }
      items[i] := items[i].(count := c);
    }
  }

  /** The hard caps, applied to the recipe in place. */
  method ClampCounts(items: array<CategoryRecipe>)
    modifies items
    ensures items[..] == Clamped(old(items[..]))
  {
    var total := CapEach(items);
    if total <= MAX_ASSETS_TOTAL || total == 0 {
      return;
    }
    ScaleEach(items, ScaleFor(total));
  }
}
