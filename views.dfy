/**
  clear_views from dismob/utils.py: unregister every persistent view of the bot that is an
  instance of the given view class (or of any class of a tuple of them). The matches are
  gathered in one full pass, then removed one by one with `list.remove`, then the count is
  logged.
*/
module Views {
  import opened Wrappers
  import opened Logging

  /**
    A persistent view object. Views compare by identity, which `id` stands for; `classes` is
    every class the object is an instance of (its own class and all its bases).
  */
  datatype View = View(id: nat, classes: set<string>)

  /** The `view_types` argument: one class, or a tuple of classes (named by qualified name). */
  datatype ViewTypes = Single(cls: string) | Tuple(members: seq<string>)

  /** isinstance(view, view_types): for a tuple, an instance of any member; never for `()`. */
  predicate IsInstance(v: View, t: ViewTypes) {
    match t
    case Single(c) => c in v.classes
    case Tuple(cs) => exists k :: 0 <= k < |cs| && cs[k] in v.classes
  }

  /** The views of `s` that are instances of `t`, in order and with repetitions. */
  function Matching(s: seq<View>, t: ViewTypes): (r: seq<View>)
    ensures |r| <= |s|
    ensures forall k :: 0 <= k < |r| ==> IsInstance(r[k], t)
  {
    if s == [] then []
    else (if IsInstance(s[0], t) then [s[0]] else []) + Matching(s[1..], t)
  }

  /**
    The views of `s` that are not instances of `t`, in order: none of them matches, and the
    list loses exactly as many entries as there are matches.
  */
  function Without(s: seq<View>, t: ViewTypes): (r: seq<View>)
    ensures forall k :: 0 <= k < |r| ==> !IsInstance(r[k], t)
    ensures |r| + |Matching(s, t)| == |s|
  {
    if s == [] then []
    else (if IsInstance(s[0], t) then [] else [s[0]]) + Without(s[1..], t)
  }

  /** list.remove(x): drop the first element equal to `x`, which must be present. */
  function RemoveFirst(s: seq<View>, x: View): (r: seq<View>)
    requires x in s
    ensures |r| == |s| - 1
    ensures multiset(r) == multiset(s) - multiset{x}
  {
    assert s == [s[0]] + s[1..];
    if s[0] == x then s[1..] else [s[0]] + RemoveFirst(s[1..], x)
  }

  /**
    list.remove(x) cuts out exactly the first occurrence of `x`: whatever precedes it (where `x`
    does not occur) and whatever follows it stay, in order.
  */
  lemma {:induction false} RemoveFirstCutsFirst(a: seq<View>, x: View, b: seq<View>)
    requires x !in a
    ensures RemoveFirst(a + [x] + b, x) == a + b
  {
    if a == [] {
      assert a + [x] + b == [x] + b;
    } else {
      var tail := a[1..] + [x] + b;
      assert a + [x] + b == [a[0]] + tail;
      assert a + b == [a[0]] + (a[1..] + b);
      assert x !in a[1..] && tail[|a| - 1] == x;
      RemoveFirstCutsFirst(a[1..], x, b);
      RemoveBehind(a[0], tail, x);
    }
  }

  /** Removing an element other than the head leaves the head in front. */
  lemma RemoveBehind(h: View, tail: seq<View>, x: View)
    requires h != x && x in tail
    ensures RemoveFirst([h] + tail, x) == [h] + RemoveFirst(tail, x)
  {
    assert ([h] + tail)[1..] == tail;
  }

  /** `s` after the first `k` of its matching entries have been removed. */
  function DropMatches(s: seq<View>, t: ViewTypes, k: nat): seq<View> {
    if s == [] then []
    else if IsInstance(s[0], t) && k > 0 then DropMatches(s[1..], t, k - 1)
    else [s[0]] + DropMatches(s[1..], t, k)
  }

  /** `a` occurs in `b` in the same relative order, possibly with gaps. */
  predicate SubsequenceOf(a: seq<View>, b: seq<View>)
    decreases |b|
  {
    a == [] || (b != [] && ((a[0] == b[0] && SubsequenceOf(a[1..], b[1..])) || SubsequenceOf(a, b[1..])))
  }

  // ---------------------------------------------------------------------------------------
  // The log line

  function DigitChar(d: nat): char
    requires d < 10
  {
    "0123456789"[d]
  }

  /** The value of a string of decimal digits, most significant first. */
  function DecimalValue(s: string): nat
    requires forall k :: 0 <= k < |s| ==> '0' <= s[k] <= '9'
    decreases |s|
  {
    if s == [] then 0 else DecimalValue(s[..|s| - 1]) * 10 + (s[|s| - 1] as int - '0' as int)
  }

  /** Python's str() of a natural number: decimal digits that read back as the number, no leading zero. */
  function NatToString(n: nat): (r: string)
    ensures |r| >= 1
    ensures forall k :: 0 <= k < |r| ==> '0' <= r[k] <= '9'
    ensures DecimalValue(r) == n
    ensures |r| > 1 ==> r[0] != '0'
    decreases n
  {
    if n < 10 then [DigitChar(n)]
    else
      var front := NatToString(n / 10);
      var r := front + [DigitChar(n % 10)];
      assert r[..|r| - 1] == front;
      r
  }

  /** str() of a class: `<class 'module.Name'>`. */
  function ClassRepr(c: string): string {
    "<class '" + c + "'>"
  }

  function JoinReprs(cs: seq<string>): string {
    if cs == [] then ""
    else if |cs| == 1 then ClassRepr(cs[0])
    else ClassRepr(cs[0]) + ", " + JoinReprs(cs[1..])
  }

  /** str() of `view_types`: a class, or a tuple (one member gets a trailing comma). */
  function TypesRepr(t: ViewTypes): string {
    match t
    case Single(c) => ClassRepr(c)
    case Tuple(cs) => "(" + JoinReprs(cs) + (if |cs| == 1 then ",)" else ")")
  }

  const SkipMessage: string := "No view types provided to clear_views; skipping."

  function RemovedMessage(n: nat, t: ViewTypes): string {
    "Removed " + NatToString(n) + " persistent views of types " + TypesRepr(t)
  }

  lemma ReprExamples()
    ensures TypesRepr(Single("app.Menu")) == "<class 'app.Menu'>"
    ensures TypesRepr(Tuple([])) == "()"
  {
  }

  lemma OneClassTupleExample()
    ensures TypesRepr(Tuple(["app.Menu"])) == "(<class 'app.Menu'>,)"
  {
    var cs := ["app.Menu"];
    var c := ClassRepr(cs[0]);
    assert c == "<class 'app.Menu'>";
    assert JoinReprs(cs) == c;
    assert TypesRepr(Tuple(cs)) == "(" + c + ",)";
  }

  lemma CountExample()
    ensures NatToString(305) == "305"
  {
    assert NatToString(3) == "3";
    assert NatToString(30) == NatToString(3) + "0";
    assert NatToString(305) == NatToString(30) + "5";
  }

  // ---------------------------------------------------------------------------------------
  // Properties of the filter

  lemma {:induction false} MatchingAppend(a: seq<View>, b: seq<View>, t: ViewTypes)
    ensures Matching(a + b, t) == Matching(a, t) + Matching(b, t)
  {
    if a == [] {
      assert a + b == b;
    } else {
      assert (a + b)[1..] == a[1..] + b;
      MatchingAppend(a[1..], b, t);
    }
  }

  lemma {:induction false} DropNone(s: seq<View>, t: ViewTypes)
    ensures DropMatches(s, t, 0) == s
  {
    if s != [] {
      DropNone(s[1..], t);
    }
  }

  lemma {:induction false} DropAll(s: seq<View>, t: ViewTypes)
    ensures DropMatches(s, t, |Matching(s, t)|) == Without(s, t)
  {
    if s != [] {
      DropAll(s[1..], t);
    }
  }

  /**
    One pass of the removal loop: the next collected match is still present, and removing its
    first occurrence removes exactly the next matching entry.
  */
  lemma {:induction false} RemoveStep(s: seq<View>, t: ViewTypes, k: nat)
    requires k < |Matching(s, t)|
    ensures Matching(s, t)[k] in DropMatches(s, t, k)
    ensures RemoveFirst(DropMatches(s, t, k), Matching(s, t)[k]) == DropMatches(s, t, k + 1)
  {
    var x := Matching(s, t)[k];
    if IsInstance(s[0], t) {
      if k == 0 {
        DropNone(s, t);
        DropNone(s[1..], t);
        assert x == s[0];
      } else {
        assert x == Matching(s[1..], t)[k - 1];
        RemoveStep(s[1..], t, k - 1);
      }
    } else {
      assert x == Matching(s[1..], t)[k];
      RemoveStep(s[1..], t, k);
      assert s[0] != x;
      var rest := DropMatches(s[1..], t, k);
      assert DropMatches(s, t, k) == [s[0]] + rest;
      assert ([s[0]] + rest)[1..] == rest;
    }
  }

  /** Entries are split between the matches and the survivors, counted with multiplicity. */
  lemma {:induction false} SplitIsPermutation(s: seq<View>, t: ViewTypes)
    ensures multiset(Matching(s, t)) + multiset(Without(s, t)) == multiset(s)
  {
    if s != [] {
      SplitIsPermutation(s[1..], t);
      assert s == [s[0]] + s[1..];
    }
  }

  /** Every view that does not match survives, as many times as it occurred. */
  lemma SurvivorsKeepTheirCount(s: seq<View>, t: ViewTypes, v: View)
    requires !IsInstance(v, t)
    ensures multiset(Without(s, t))[v] == multiset(s)[v]
  {
    SplitIsPermutation(s, t);
    var m := Matching(s, t);
    assert forall k :: 0 <= k < |m| ==> m[k] != v;
    assert v !in m;
    assert multiset(m)[v] == 0;
  }

  /** The survivors keep their original relative order. */
  lemma {:induction false} SurvivorsKeepTheirOrder(s: seq<View>, t: ViewTypes)
    ensures SubsequenceOf(Without(s, t), s)
  {
    if s != [] {
      SurvivorsKeepTheirOrder(s[1..], t);
      var rest := Without(s[1..], t);
      if IsInstance(s[0], t) {
        assert Without(s, t) == rest;
      } else {
        assert Without(s, t) == [s[0]] + rest;
        assert ([s[0]] + rest)[1..] == rest;
      }
    }
  }

  /** Clearing twice removes nothing the second time. */
  lemma {:induction false} ClearIsIdempotent(s: seq<View>, t: ViewTypes)
    ensures Without(Without(s, t), t) == Without(s, t)
    ensures Matching(Without(s, t), t) == []
  {
    if s != [] {
      ClearIsIdempotent(s[1..], t);
      var rest := Without(s[1..], t);
      if IsInstance(s[0], t) {
        assert Without(s, t) == rest;
      } else {
        var r := [s[0]] + rest;
        assert Without(s, t) == r;
        assert r[1..] == rest && !IsInstance(r[0], t);
        assert Without(r, t) == [s[0]] + Without(rest, t);
        assert Matching(r, t) == Matching(rest, t);
      }
    }
  }

  // ---------------------------------------------------------------------------------------
  // The bot and the sweep

  /** The discord client, as far as clear_views sees it. */
  class Bot {
    var persistentViews: seq<View>

    constructor (views: seq<View>)
      ensures persistentViews == views
    {
      persistentViews := views;
    }
  }

  /**
    clear_views. Without view types: one warning, the views untouched. Otherwise every match is
    removed, the survivors are what `Without` keeps, and one info entry reports the number of
    matches and the types. Without a logger the guard raises instead of logging; in the second
    case the views have been removed by then.
  */
  method ClearViews(bot: Bot, sink: LogSink, viewTypes: Option<ViewTypes>) returns (exit: Exit<()>)
    modifies bot`persistentViews, sink`records
    ensures viewTypes.None? ==>
      && bot.persistentViews == old(bot.persistentViews)
      && exit == Guard(sink.logger.Some?, Entry(WARNING, SkipMessage, false), ()).exit
      && sink.records == old(sink.records) + Guard(sink.logger.Some?, Entry(WARNING, SkipMessage, false), ()).log
    ensures viewTypes.Some? ==>
      var removed := |Matching(old(bot.persistentViews), viewTypes.value)|;
      var e := Entry(INFO, RemovedMessage(removed, viewTypes.value), false);
      && bot.persistentViews == Without(old(bot.persistentViews), viewTypes.value)
      && exit == Guard(sink.logger.Some?, e, ()).exit
      && sink.records == old(sink.records) + Guard(sink.logger.Some?, e, ()).log
  {
    if viewTypes.None? {
      exit := sink.Warning(SkipMessage);
      return;
    }
    var t := viewTypes.value;
    var views := bot.persistentViews;

    // first pass: collect the matches; the list is not touched
    var toRemove: seq<View> := [];
    var i := 0;
    while i < |views|
      invariant 0 <= i <= |views|
      invariant toRemove == Matching(views[..i], t)
      invariant bot.persistentViews == views && sink.records == old(sink.records)
    {
      MatchingAppend(views[..i], [views[i]], t);
      assert views[..i + 1] == views[..i] + [views[i]];
      if IsInstance(views[i], t) {
        toRemove := toRemove + [views[i]];
      }
      i := i + 1;
    }
    assert views[..i] == views;

    // second pass: remove each collected view from the live list
    var k := 0;
    DropNone(views, t);
    while k < |toRemove|
      invariant 0 <= k <= |toRemove|
      invariant bot.persistentViews == DropMatches(views, t, k)
      invariant sink.records == old(sink.records)
    {
      RemoveStep(views, t, k);
      bot.persistentViews := RemoveFirst(bot.persistentViews, toRemove[k]);
      k := k + 1;
    }
    DropAll(views, t);

    exit := sink.Info(RemovedMessage(|toRemove|, t));
  }
}
