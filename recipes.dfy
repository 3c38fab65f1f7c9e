/** The recipe handlers (handlers/recipes.go): the plain recipe listing and
    the average rating of one recipe, computed from the rating records the
    record store returns for it. */
module Recipes {
  import opened Wrappers
  import opened GoText
  import opened Json
  import opened Http

  const AveragePrefix := "/api/ratings/average/"
  const RecipesUrl := RecordStoreBase + "/api/collections/recipes/records?expand=author"
  const RatingsFilterPrefix := RecordStoreBase + "/api/collections/ratings/records?filter=recipeId='"

  /** The exact body sent when a recipe has no ratings. */
  const NoRatingsBody := "{\"averageRating\": 0}"

  /** `GetRecipes`: the recipe listing is requested; the upstream status is
      mirrored when it is not 200; otherwise the body is sent back byte for
      byte, unsanitized, once it decodes into a map. */
  function GetRecipes(reply: Upstream): (x: Fetched)
    ensures x.url == RecipesUrl
    ensures reply.Unreachable? ==> x.response == Error("Failed to fetch recipes", StatusInternalServerError)
    ensures reply.Reply? && reply.status != StatusOK ==>
      x.response == Error("Failed to fetch recipes from PocketBase", reply.status)
    ensures x.response.status == StatusOK <==>
      reply.Reply? && reply.status == StatusOK && ReplyDecodesAsMap(reply.payload)
    ensures x.response.status == StatusOK ==> x.response.content == Raw(reply.payload.raw)
    ensures reply.Reply? && reply.status == StatusOK && reply.payload.Unreadable? ==>
      x.response == Error("Failed to read response", StatusInternalServerError)
    ensures reply.Reply? && reply.status == StatusOK && reply.payload.Body? && !ReplyDecodesAsMap(reply.payload) ==>
      x.response == Error("Failed to parse JSON", StatusInternalServerError)
  {
    var response :=
      if reply.Unreachable? then Error("Failed to fetch recipes", StatusInternalServerError)
      else if reply.status != StatusOK then Error("Failed to fetch recipes from PocketBase", reply.status)
      else if reply.payload.Unreadable? then Error("Failed to read response", StatusInternalServerError)
      else if !ReplyDecodesAsMap(reply.payload) then Error("Failed to parse JSON", StatusInternalServerError)
      else Response(StatusOK, Raw(reply.payload.raw));
    Fetched(RecipesUrl, response)
  }

  /** The recipe id: the request path with the fixed prefix removed when it
      is there (`strings.TrimPrefix`), the whole path otherwise. */
  function RecipeId(path: string): (id: string)
    ensures AveragePrefix <= path ==> AveragePrefix + id == path
    ensures !(AveragePrefix <= path) ==> id == path
  {
    TrimPrefix(path, AveragePrefix)
  }

  /** The ratings query for a recipe, built by plain concatenation: the id is
      placed verbatim between the filter's quotes, with no escaping, so it
      can be read back from the URL whatever characters (quotes included) it
      holds. */
  function RatingsUrl(recipeId: string): (u: string)
    ensures |u| == |RatingsFilterPrefix| + |recipeId| + 1
    ensures RatingsFilterPrefix <= u
    ensures u[|RatingsFilterPrefix|..|u| - 1] == recipeId
    ensures u[|u| - 1] == '\''
  {
    var u := RatingsFilterPrefix + recipeId + "'";
    assert u[|RatingsFilterPrefix|..|u| - 1] == recipeId;
    u
  }

  /** Distinct ids query distinct URLs. */
  lemma RatingsUrlInjective(a: string, b: string)
    ensures RatingsUrl(a) == RatingsUrl(b) <==> a == b
  {
  }

  /** `%v` of a float64 prints it with the shortest digits, in exponent form
      once the decimal exponent reaches 6: a number prints as a plain
      integer exactly when it is integral with magnitude below 10^6. */
  predicate PrintsAsInteger(x: real) {
    x == x.Floor as real && -1_000_000.0 < x < 1_000_000.0
  }

  /** `strconv.Atoi(fmt.Sprintf("%v", v))` for a rating's `value`. Strings
      print as themselves and are read by Atoi. A missing value and `null`
      print as "<nil>", booleans as "true"/"false", arrays as "[...]" and
      objects as "map[...]": Atoi refuses all of these, as
      `ScoreOfAcceptsOnlyNumerals` and `AtoiRefusesComposites` show, so they
      fail outright here. A number that does not print as an integer prints
      with a "." or an "e", which Atoi refuses too. */
  function ScoreOf(value: Option<Json>): (r: Option<int>)
    ensures r.Some? ==> MinInt64 <= r.value <= MaxInt64
    ensures value.Some? && value.value.JNum? ==>
      && (r.Some? <==> PrintsAsInteger(value.value.n))
      && (r.Some? ==> r.value as real == value.value.n)
  {
    match value
    case None => None
    case Some(JNull) => None
    case Some(JBool(_)) => None
    case Some(JStr(s)) => Atoi(s)
    case Some(JNum(x)) =>
      if PrintsAsInteger(x) then
        AtoiItoa(x.Floor);
        Atoi(Itoa(x.Floor))
      else None
    case Some(JArr(_)) => None
    case Some(JObj(_)) => None
  }

  /** Only strings and numbers can coerce: a missing value, `null`, a
      boolean, an array, an object, a fraction and a number of 10^6 or more
      all fail; a string coerces exactly as Atoi reads it. */
  lemma ScoreOfAcceptsOnlyNumerals(value: Option<Json>)
    ensures ScoreOf(value).Some? ==>
      value.Some? && (value.value.JStr? || (value.value.JNum? && PrintsAsInteger(value.value.n)))
    ensures value.Some? && value.value.JStr? ==> ScoreOf(value) == Atoi(value.value.s)
    ensures value.None? || value == Some(JNull) ==> ScoreOf(value) == Atoi("<nil>")
    ensures value.Some? && value.value.JBool? ==>
      ScoreOf(value) == Atoi(if value.value.b then "true" else "false")
  {
    assert !IsDigit("<nil>"[0]) && !IsSign("<nil>"[0]);
    assert !IsDigit("true"[0]) && !IsSign("true"[0]);
    assert !IsDigit("false"[0]) && !IsSign("false"[0]);
  }

  /** What `%v` prints for an array ("[...]") or an object ("map[...]")
      never reads as a number. */
  lemma AtoiRefusesComposites(s: string)
    requires |s| > 0 && (s[0] == '[' || s[0] == 'm')
    ensures Atoi(s) == None
  {
  }

  /** Every integral number below 10^6 in magnitude coerces to itself. */
  lemma ScoreOfInteger(n: int)
    requires -1_000_000 < n < 1_000_000
    ensures ScoreOf(Some(JNum(n as real))) == Some(n)
  {
    assert (n as real).Floor == n;
    AtoiItoa(n);
  }

  /** What one pass of the loop makes of an item. */
  datatype Tally =
    | Total(sum: int)   // every item so far coerced; their sum
    | NotAnObject       // `item.(map[string]interface{})` panics
    | BadScore          // Atoi failed: the request ends with a 500

  /** One item on its own: its score, or the failure it causes. */
  function RatingOf(item: Json): Tally {
    if !item.JObj? then NotAnObject
    else match ScoreOf(FieldOf(item.fields, "value"))
      case None => BadScore
      case Some(v) => Total(v)
  }

  /** The loop over the items, left to right: the sum of the scores, or the
      failure of the first item that fails. */
  function Scan(items: seq<Json>): (t: Tally)
    ensures t.Total? ==> forall i :: 0 <= i < |items| ==> Rateable(items[i])
    ensures !t.Total? ==> exists j :: 0 <= j < |items| && !Rateable(items[j]) && t == RatingOf(items[j])
  {
    if items == [] then Total(0)
    else
      var init, last := items[..|items| - 1], items[|items| - 1];
      assert forall i :: 0 <= i < |init| ==> init[i] == items[i];
      var before := Scan(init);
      var step := RatingOf(last);
      if !before.Total? then
        assert exists j :: 0 <= j < |init| && !Rateable(init[j]) && before == RatingOf(init[j]);
        before
      else if !step.Total? then
        assert items[|items| - 1] == last;
        step
      else
        assert forall i :: 0 <= i < |init| ==> Rateable(init[i]);
        assert Rateable(items[|items| - 1]);
        Total(before.sum + step.sum)
  }

  predicate Rateable(item: Json) {
    RatingOf(item).Total?
  }

  predicate AllRateable(items: seq<Json>) {
    forall i :: 0 <= i < |items| ==> Rateable(items[i])
  }

  /** The score a rateable item contributes to the total. */
  function Score(item: Json): int {
    if Rateable(item) then RatingOf(item).sum else 0
  }

  /** `f` summed over a list, first element first. */
  function SumOf<T>(xs: seq<T>, f: T -> int): int {
    if xs == [] then 0 else f(xs[0]) + SumOf(xs[1..], f)
  }

  /** The sum of the scores of a list of rateable items. */
  function SumScores(items: seq<Json>): int
    requires AllRateable(items)
  {
    SumOf(items, Score)
  }

  /** A sum over two lists one after the other is the sum of their sums. */
  lemma {:induction false} SumOfConcat<T>(a: seq<T>, b: seq<T>, f: T -> int)
    ensures SumOf(a + b, f) == SumOf(a, f) + SumOf(b, f)
  {
    if a == [] {
      assert a + b == b;
    } else {
      assert (a + b)[1..] == a[1..] + b;
      SumOfConcat(a[1..], b, f);
    }
  }

  /** Adding a rateable item to the list adds its score to the sum. */
  lemma SumScoresAppend(items: seq<Json>, item: Json)
    requires AllRateable(items) && Rateable(item)
    ensures AllRateable(items + [item])
    ensures SumScores(items + [item]) == SumScores(items) + RatingOf(item).sum
  {
    SumOfConcat(items, [item], Score);
    assert SumOf([item], Score) == Score(item);
  }

  /** The loop runs to the end exactly when every item is an object whose
      value coerces, and then it has summed all their scores. */
  lemma {:induction false} ScanTotal(items: seq<Json>)
    ensures Scan(items).Total? <==> AllRateable(items)
    ensures Scan(items).Total? ==> Scan(items).sum == SumScores(items)
  {
    if items != [] {
      var init, last := items[..|items| - 1], items[|items| - 1];
      assert items == init + [last];
      ScanTotal(init);
      if AllRateable(items) {
        assert AllRateable(init);
        SumScoresAppend(init, last);
      } else if AllRateable(init) {
        assert !Rateable(last);
      }
    }
  }

  /** Once a prefix of the items has failed, the whole loop fails the same
      way: the items after it are never looked at. */
  lemma {:induction false} ScanFailureStops(items: seq<Json>, n: nat)
    requires n <= |items|
    requires !Scan(items[..n]).Total?
    ensures Scan(items) == Scan(items[..n])
  {
    if n < |items| {
      assert items[..|items| - 1][..n] == items[..n];
      ScanFailureStops(items[..|items| - 1], n);
    } else {
      assert items[..n] == items;
    }
  }

  /** The first item that fails decides the outcome, whatever follows it:
      a non-object panics, a value that does not coerce is a 500. */
  lemma FirstFailureDecides(items: seq<Json>, j: nat)
    requires j < |items|
    requires forall i :: 0 <= i < j ==> Rateable(items[i])
    requires !Rateable(items[j])
    ensures Scan(items) == RatingOf(items[j])
  {
    var prefix := items[..j];
    assert AllRateable(prefix);
    ScanTotal(prefix);
    assert items[..j + 1][..j] == prefix;
    ScanFailureStops(items, j + 1);
  }

  /** Taking out the element at `j` takes its value off the sum. */
  lemma SumOfRemove<T>(xs: seq<T>, j: nat, f: T -> int)
    requires j < |xs|
    ensures SumOf(xs, f) == f(xs[j]) + SumOf(xs[..j] + xs[j + 1..], f)
  {
    var before, one, after := xs[..j], [xs[j]], xs[j + 1..];
    assert xs == before + (one + after);
    assert SumOf(one, f) == f(xs[j]);
    SumOfConcat(one, after, f);
    SumOfConcat(before, one + after, f);
    SumOfConcat(before, after, f);
  }

  /** Taking out the element at `j` takes one copy of it out of the multiset. */
  lemma RemoveFromMultiset<T>(b: seq<T>, j: nat)
    requires j < |b|
    ensures multiset(b[..j] + b[j + 1..]) == multiset(b) - multiset{b[j]}
  {
    assert b == b[..j] + [b[j]] + b[j + 1..];
  }

  /** The first element of `a` sits somewhere in its rearrangement `b`; the
      rest of `a` is a rearrangement of `b` without it. */
  lemma MatchFirst<T>(a: seq<T>, b: seq<T>) returns (j: nat)
    requires multiset(a) == multiset(b) && a != []
    ensures j < |b| && b[j] == a[0]
    ensures multiset(a[1..]) == multiset(b[..j] + b[j + 1..])
  {
    assert a[0] in multiset(b);
    j :| 0 <= j < |b| && b[j] == a[0];
    RemoveFromMultiset(b, j);
    assert a == [a[0]] + a[1..];
  }

  /** A sum does not depend on the order of the elements. */
  lemma {:induction false} SumOfPermutation<T>(a: seq<T>, b: seq<T>, f: T -> int)
    requires multiset(a) == multiset(b)
    ensures SumOf(a, f) == SumOf(b, f)
  {
    if a != [] {
      var j := MatchFirst(a, b);
      SumOfRemove(b, j, f);
      SumOfPermutation(a[1..], b[..j] + b[j + 1..], f);
    }
  }

  /** Rearranging rateable items leaves them rateable. */
  lemma PermutationRateable(a: seq<Json>, b: seq<Json>)
    requires multiset(a) == multiset(b)
    requires AllRateable(a)
    ensures AllRateable(b)
  {
    forall i | 0 <= i < |b| ensures Rateable(b[i]) {
      assert b[i] in multiset(b);
      assert b[i] in multiset(a);
    }
  }

  /** The sum of the scores does not depend on the order of the items. */
  lemma SumScoresPermutation(a: seq<Json>, b: seq<Json>)
    requires multiset(a) == multiset(b)
    requires AllRateable(a)
    ensures AllRateable(b)
    ensures SumScores(a) == SumScores(b)
  {
    PermutationRateable(a, b);
    SumOfPermutation(a, b, Score);
  }

  /** The outcome of a request whose envelope carried an `items` array. */
  datatype Outcome =
    | Respond(response: Response)
    | Panic   // a failed type assertion: the handler never writes a response

  /** `{"averageRating": sum / count}`, with exact division in place of
      float64. */
  function AverageBody(sum: int, count: nat): Json
    requires count > 0
  {
    JObj(map["averageRating" := JNum(sum as real / count as real)])
  }

  /** The response for a list of rating items, as the handler computes it:
      a panic only when some item is not an object; otherwise a 200, or the
      500 for a value that does not coerce. */
  function AverageOutcome(items: seq<Json>): (o: Outcome)
    ensures o.Panic? ==> exists j :: 0 <= j < |items| && !items[j].JObj?
    ensures o.Respond? ==>
      o.response.status == StatusOK || o.response == Error("Invalid score value", StatusInternalServerError)
    ensures o.Respond? && o.response.status != StatusOK ==>
      exists j :: 0 <= j < |items| && items[j].JObj? && !Rateable(items[j])
  {
    match Scan(items)
    case NotAnObject => Panic
    case BadScore => Respond(Error("Invalid score value", StatusInternalServerError))
    case Total(sum) =>
      if |items| == 0 then Respond(Response(StatusOK, Raw(NoRatingsBody)))
      else Respond(Response(StatusOK, JsonContent(AverageBody(sum, |items|))))
  }

  /** A 200 answer carries the mean of all the scores (or the fixed zero
      body when there are none); when any item is not a rateable object
      there is no 200 at all: a panic or a 500. */
  lemma AverageIsMean(items: seq<Json>)
    ensures AverageOutcome(items).Respond? && AverageOutcome(items).response.status == StatusOK
      <==> AllRateable(items)
    ensures items == [] ==> AverageOutcome(items) == Respond(Response(StatusOK, Raw(NoRatingsBody)))
    ensures items != [] && AllRateable(items) ==>
      AverageOutcome(items) == Respond(Response(StatusOK, JsonContent(
        JObj(map["averageRating" := JNum(SumScores(items) as real / |items| as real)]))))
  {
    ScanTotal(items);
  }

  /** The response does not depend on the order of the rating records, as
      long as they all coerce. */
  lemma AverageIgnoresOrder(a: seq<Json>, b: seq<Json>)
    requires multiset(a) == multiset(b)
    requires AllRateable(a)
    ensures AverageOutcome(a) == AverageOutcome(b)
  {
    SumScoresPermutation(a, b);
    ScanTotal(a);
    ScanTotal(b);
    assert |a| == |multiset(a)| == |multiset(b)| == |b|;
  }

  /** Ratings 3 (a number) and "5" (a string) average to 4; a first rating
      "abc" makes the request fail with a 500, whatever the ratings after it
      are. */
  lemma AverageExamples(others: seq<Json>)
    ensures AverageOutcome([JObj(map["value" := JNum(3.0)]), JObj(map["value" := JStr("5")])])
      == Respond(Response(StatusOK, JsonContent(JObj(map["averageRating" := JNum(4.0)]))))
    ensures AverageOutcome([JObj(map["value" := JStr("abc")])] + others)
      == Respond(Error("Invalid score value", StatusInternalServerError))
  {
    ScoreOfInteger(3);
    AtoiAcceptsNumerals("5");
    var items := [JObj(map["value" := JNum(3.0)]), JObj(map["value" := JStr("5")])];
    assert RatingOf(items[0]) == Total(3);
    assert RatingOf(items[1]) == Total(5);
    assert items[..1][..0] == [];
    assert Scan(items[..1]) == Total(3);
    assert items[..|items| - 1] == items[..1];
    assert Scan(items) == Total(8);
    var bad := [JObj(map["value" := JStr("abc")])] + others;
    assert !IsDigit("abc"[0]) && !IsSign("abc"[0]);
    assert RatingOf(bad[0]) == BadScore;
    FirstFailureDecides(bad, 0);
  }

  /** The handler's loop over the rating items (handlers/recipes.go:82-107):
      sum the scores left to right, stopping at the first item that fails,
      then answer with the average. */
  method AverageOfItems(items: seq<Json>) returns (outcome: Outcome)
    ensures outcome == AverageOutcome(items)
  {
    var totalScore := 0;
    var i := 0;
    while i < |items|
      invariant 0 <= i <= |items|
      invariant Scan(items[..i]) == Total(totalScore)
    {
      assert items[..i + 1][..i] == items[..i];
      var item := items[i];
      if !item.JObj? {
        assert Scan(items[..i + 1]) == NotAnObject;
        ScanFailureStops(items, i + 1);
        return Panic;
      }
      var score := ScoreOf(FieldOf(item.fields, "value"));
      if score.None? {
        assert Scan(items[..i + 1]) == BadScore;
        ScanFailureStops(items, i + 1);
        return Respond(Error("Invalid score value", StatusInternalServerError));
      }
      assert RatingOf(item) == Total(score.value);
      assert Scan(items[..i + 1]) == Total(totalScore + score.value);
      totalScore := totalScore + score.value;
      i := i + 1;
    }
    assert items[..i] == items;
    if |items| == 0 {
      return Respond(Response(StatusOK, Raw(NoRatingsBody)));
    }
    outcome := Respond(Response(StatusOK, JsonContent(AverageBody(totalScore, |items|))));
  }

  /** `GetAverageRecipeRating`: the URL requested and the outcome. */
  method GetAverageRecipeRating(path: string, reply: Upstream) returns (url: string, outcome: Outcome)
    ensures url == RatingsUrl(RecipeId(path))
    ensures reply.Unreachable? ==>
      outcome == Respond(Error("Failed to fetch ratings", StatusInternalServerError))
    ensures reply.Reply? && reply.status != StatusOK ==>
      outcome == Respond(Error("Failed to fetch ratings from PocketBase", reply.status))
    ensures reply.Reply? && reply.status == StatusOK && reply.payload.Unreadable? ==>
      outcome == Respond(Error("Failed to read response", StatusInternalServerError))
    ensures reply.Reply? && reply.status == StatusOK && reply.payload.Body? && !ReplyDecodesAsMap(reply.payload) ==>
      outcome == Respond(Error("Failed to parse JSON", StatusInternalServerError))
    ensures reply.Reply? && reply.status == StatusOK && ReplyDecodesAsMap(reply.payload) ==>
      outcome == match ItemsOf(reply.payload.decoded.value)
                 case None => Panic
                 case Some(items) => AverageOutcome(items)
  {
    url := RatingsUrl(RecipeId(path));
    if reply.Unreachable? {
      return url, Respond(Error("Failed to fetch ratings", StatusInternalServerError));
    }
    if reply.status != StatusOK {
      return url, Respond(Error("Failed to fetch ratings from PocketBase", reply.status));
    }
    if reply.payload.Unreadable? {
      return url, Respond(Error("Failed to read response", StatusInternalServerError));
    }
    if !ReplyDecodesAsMap(reply.payload) {
      return url, Respond(Error("Failed to parse JSON", StatusInternalServerError));
    }
    // `result["items"].([]interface{})` without the comma-ok form: a
    // missing or non-array `items` panics.
    var found := ItemsOf(reply.payload.decoded.value);
    if found.None? {
      return url, Panic;
    }
    outcome := AverageOfItems(found.value);
  }
}
