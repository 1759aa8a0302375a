/** Topic routing of the broker bridge (src/device/mqtt/mqtt.service.ts):
    matching a topic against a subscription filter with the `+` and `#`
    wildcards, and reading the device id out of a `device/{id}/...` topic.
    The filter semantics approximate section 4.7 of MQTT Version 3.1.1;
    where the code differs from the standard, the model follows the code. */
module Topics {

  import opened Strings

  const Sep: char := '/'

  /** Topic levels: the topic split on '/'. */
  function Levels(topic: string): (ls: seq<string>)
    ensures |ls| >= 1
  {
    Split(topic, Sep)
  }

  /** Level `j` of the filter admits the topic's level `j`: a `+`, or a
      literal equal to an existing topic level. */
  predicate LevelOk(tp: seq<string>, pp: seq<string>, j: nat)
    requires j < |pp|
  {
    pp[j] == "+" || (j < |tp| && pp[j] == tp[j])
  }

  /** Reference definition of a level-wise match: either some `#` stands at a
      position `i` and every filter level before it admits the topic, or there
      is no `#`, the level counts agree and every level admits the topic. */
  ghost predicate LevelsMatch(tp: seq<string>, pp: seq<string>) {
    (exists i :: 0 <= i < |pp| && pp[i] == "#" && PrefixAdmits(tp, pp, i))
    || ("#" !in pp && |tp| == |pp| && PrefixAdmits(tp, pp, |pp|))
  }

  /** The first `i` filter levels are no `#` and each admits the topic. */
  ghost predicate PrefixAdmits(tp: seq<string>, pp: seq<string>, i: nat)
    requires i <= |pp|
  {
    forall j :: 0 <= j < i ==> pp[j] != "#" && LevelOk(tp, pp, j)
  }

  /** The filter `pattern` selects `topic`: equal strings always do. */
  ghost predicate Matches(topic: string, pattern: string) {
    topic == pattern || LevelsMatch(Levels(topic), Levels(pattern))
  }

  /** `topicMatchesPattern`: the loop over the filter's levels, with an early
      `true` at `#`, `continue` at `+`, and an early `false` at a literal that
      has no equal topic level. */
  method TopicMatchesPattern(topic: string, pattern: string) returns (r: bool)
    ensures r == Matches(topic, pattern)
  {
    if topic == pattern {
      return true;
    }
    var tp := Levels(topic);
    var pp := Levels(pattern);
    var i := 0;
    while i < |pp|
      invariant 0 <= i <= |pp|
      invariant PrefixAdmits(tp, pp, i)
    {
      if pp[i] == "#" {
        return true;
      }
      if pp[i] == "+" {
        i := i + 1;
        continue;
      }
      if i >= |tp| || pp[i] != tp[i] {
        assert !LevelOk(tp, pp, i);
        NoMatchPastBadLevel(tp, pp, i);
        return false;
      }
      i := i + 1;
    }
    assert "#" !in pp by {
      forall k | 0 <= k < |pp| ensures pp[k] != "#" {
        assert pp[k] != "#" && LevelOk(tp, pp, k);
      }
    }
    if |tp| != |pp| {
      NoHashNoMatch(tp, pp);
    }
    return |tp| == |pp|;
  }

  /** When filter level `i` is a literal that fails and no `#` precedes it,
      nothing matches. */
  lemma NoMatchPastBadLevel(tp: seq<string>, pp: seq<string>, i: nat)
    requires i < |pp| && PrefixAdmits(tp, pp, i) && pp[i] != "#" && !LevelOk(tp, pp, i)
    ensures !LevelsMatch(tp, pp)
  {
    forall k | 0 <= k < |pp| && pp[k] == "#" ensures !PrefixAdmits(tp, pp, k) {
      assert k > i;
    }
  }

  lemma NoHashNoMatch(tp: seq<string>, pp: seq<string>)
    requires "#" !in pp && |tp| != |pp|
    ensures !LevelsMatch(tp, pp)
  {
  }

  /** `+` admits any single level, the empty one included: changing the topic
      level under a `+` never changes the outcome of a level-wise match. */
  lemma PlusAdmitsAnyLevel(tp: seq<string>, pp: seq<string>, k: nat, x: string)
    requires k < |tp| && k < |pp| && pp[k] == "+"
    ensures LevelsMatch(tp, pp) <==> LevelsMatch(tp[k := x], pp)
  {
    var tq := tp[k := x];
    forall i | 0 <= i <= |pp| ensures PrefixAdmits(tp, pp, i) <==> PrefixAdmits(tq, pp, i) {
      forall j | 0 <= j < i ensures LevelOk(tp, pp, j) <==> LevelOk(tq, pp, j) {
      }
    }
  }

  /** A `#` at position i matches every topic whose first i levels are
      admitted, including a topic with exactly i levels (`a/#` matches `a`). */
  lemma HashMatchesRemainder(tp: seq<string>, pp: seq<string>, i: nat)
    requires i < |pp| && pp[i] == "#" && PrefixAdmits(tp, pp, i)
    ensures LevelsMatch(tp, pp)
  {
  }

  /** Without `#`, a match needs equal level counts and literal equality at
      every level that is not `+`. */
  lemma {:induction false} WithoutHash(tp: seq<string>, pp: seq<string>)
    requires "#" !in pp
    ensures LevelsMatch(tp, pp) <==>
              |tp| == |pp| && forall j :: 0 <= j < |pp| && pp[j] != "+" ==> pp[j] == tp[j]
  {
    if |tp| == |pp| && forall j :: 0 <= j < |pp| && pp[j] != "+" ==> pp[j] == tp[j] {
      forall j | 0 <= j < |pp| ensures pp[j] != "#" && LevelOk(tp, pp, j) {
        assert pp[j] in pp;
      }
    }
  }

  /** The levels of `a/b` for two pieces free of '/'. */
  lemma LevelsOfTwo(a: string, b: string)
    requires Sep !in a && Sep !in b
    ensures Levels(a + "/" + b) == [a, b]
  {
    assert Join([a, b], Sep) == a + "/" + b;
    SplitJoin([a, b], Sep);
  }

  /** The levels of `a/b/d` for three pieces free of '/'. */
  lemma LevelsOfThree(a: string, b: string, d: string)
    requires Sep !in a && Sep !in b && Sep !in d
    ensures Levels(a + "/" + b + "/" + d) == [a, b, d]
  {
    assert a + "/" + b + "/" + d == a + [Sep] + b + [Sep] + d;
    SplitThree(a, b, d, Sep);
  }

  /** The levels of `a/b/c/d/e` for five pieces free of '/'. */
  lemma LevelsOfFive(a: string, b: string, c: string, d: string, e: string)
    requires Sep !in a && Sep !in b && Sep !in c && Sep !in d && Sep !in e
    ensures Levels(a + "/" + b + "/" + c + "/" + d + "/" + e) == [a, b, c, d, e]
  {
    var parts := [a, b, c, d, e];
    assert Join(parts[4..], Sep) == e;
    assert Join(parts[3..], Sep) == d + [Sep] + e;
    assert Join(parts[2..], Sep) == c + [Sep] + (d + [Sep] + e);
    assert Join(parts[1..], Sep) == b + [Sep] + (c + [Sep] + (d + [Sep] + e));
    assert Join(parts, Sep) == a + "/" + b + "/" + c + "/" + d + "/" + e;
    SplitJoin(parts, Sep);
  }

  /** `device/+/{kind}` selects the `{kind}` topic of every device id free of
      '/' (the filters the bridge registers for status and telemetry). */
  lemma {:induction false} DeviceFilterSelects(id: string, kind: string)
    requires Sep !in id && Sep !in kind && kind != "#"
    ensures Matches("device/" + id + "/" + kind, "device/+/" + kind)
  {
    assert "device/" + id + "/" + kind == "device" + "/" + id + "/" + kind;
    LevelsOfThree("device", id, kind);
    assert "device/+/" + kind == "device" + "/" + "+" + "/" + kind;
    LevelsOfThree("device", "+", kind);
    var pp := ["device", "+", kind];
    assert "#" !in pp by {
      assert forall k :: 0 <= k < 3 ==> pp[k] != "#";
    }
    WithoutHash(["device", id, kind], pp);
  }

  /** `a/#` selects `a/b`, and it selects `a` itself as well. */
  lemma {:induction false} HashSelectsParentAndChildren(a: string, b: string)
    requires Sep !in a && Sep !in b
    ensures Matches(a + "/" + b, a + "/#")
    ensures Matches(a, a + "/#")
  {
    LevelsOfTwo(a, b);
    assert a + "/#" == a + "/" + "#";
    LevelsOfTwo(a, "#");
    assert Levels(a) == [a];
    var at := if a == "#" then 0 else 1;
    HashMatchesRemainder([a, b], [a, "#"], at);
    HashMatchesRemainder([a], [a, "#"], at);
  }

  /** `a/+/+` does not select `a/b`: the level counts differ. */
  lemma {:induction false} PlusCountsLevels(a: string, b: string)
    requires Sep !in a && Sep !in b && a != "#"
    ensures !Matches(a + "/" + b, a + "/+/+")
  {
    LevelsOfTwo(a, b);
    assert a + "/+/+" == a + "/" + "+" + "/" + "+";
    LevelsOfThree(a, "+", "+");
    assert "#" !in [a, "+", "+"];
    NoHashNoMatch([a, b], [a, "+", "+"]);
  }

  /** Unlike section 4.7.1.2 of MQTT 3.1.1, a `+` directly before `#` does not
      require a level to exist: `a/+/#` selects `a`. */
  lemma {:induction false} PlusBeforeHashNeedsNoLevel(a: string)
    requires Sep !in a
    ensures Matches(a, a + "/+/#")
  {
    assert a + "/+/#" == a + "/" + "+" + "/" + "#";
    LevelsOfThree(a, "+", "#");
    assert Levels(a) == [a];
    HashMatchesRemainder([a], [a, "+", "#"], if a == "#" then 0 else 2);
  }

  /** `extractDeviceId`: the second level of a `device/...` topic, or the
      sentinel "unknown" when the first level is not `device` or the second
      is missing or empty (so `farm/{f}/device/{d}/...` yields "unknown"). */
  function ExtractDeviceId(topic: string): (id: string)
    ensures id == "unknown" || (Sep !in id && id != "" && StartsWith(topic, "device/" + id))
    ensures id != "unknown" ==> |topic| == 7 + |id| || topic[7 + |id|] == Sep
  {
    var parts := Levels(topic);
    if parts[0] == "device" && |parts| >= 2 && parts[1] != "" then
      SplitPiecesFree(topic, Sep);
      SecondLevelPrefix(topic);
      parts[1]
    else "unknown"
  }

  lemma SecondLevelPrefix(topic: string)
    requires |Levels(topic)| >= 2 && Levels(topic)[0] == "device"
    ensures StartsWith(topic, "device/" + Levels(topic)[1])
    ensures |topic| == 7 + |Levels(topic)[1]| || topic[7 + |Levels(topic)[1]|] == Sep
  {
    var parts := Levels(topic);
    JoinSplit(topic, Sep);
    var rest := Join(parts[1..], Sep);
    assert topic == "device" + [Sep] + rest;
    assert StartsWith(rest, parts[1]) && (|rest| == |parts[1]| || rest[|parts[1]|] == Sep) by {
      if |parts[1..]| > 1 {
        assert rest == parts[1] + [Sep] + Join(parts[2..], Sep);
      }
    }
    assert "device/" + parts[1] == "device" + [Sep] + parts[1];
  }

  /** The sentinel comes back for every topic outside `device/`, and for
      `device/` topics whose second level is empty or missing. */
  lemma UnknownOutsideDeviceLevel(topic: string)
    requires !StartsWith(topic, "device/") || |topic| == 7 || topic[7] == Sep
    ensures ExtractDeviceId(topic) == "unknown"
  {
  }

  /** For a `device/{id}/{rest}` topic with a non-empty id free of '/', the id. */
  lemma {:induction false} ExtractsDeviceLevel(id: string, rest: string)
    requires Sep !in id && id != ""
    ensures ExtractDeviceId("device/" + id + "/" + rest) == id
  {
    var topic := "device/" + id + "/" + rest;
    var tail := id + [Sep] + rest;
    assert Split(tail, Sep) == [id] + Split(rest, Sep) by {
      SplitHead(id, Sep, rest);
    }
    assert Levels(topic) == ["device"] + Split(tail, Sep) by {
      assert topic == "device" + [Sep] + tail;
      SplitHead("device", Sep, tail);
    }
  }

  /** A farm-scoped topic never yields a device id. */
  lemma FarmTopicIsUnknown(rest: string)
    ensures ExtractDeviceId("farm/" + rest) == "unknown"
  {
    var topic := "farm/" + rest;
    assert topic == "farm" + [Sep] + rest;
    IndexOfPrefix(topic, Sep, 4);
  }

  /** The first level of `a/rest`, for a piece `a` free of '/'. */
  lemma FirstLevelOf(a: string, rest: string)
    requires Sep !in a
    ensures Levels(a + "/" + rest)[0] == a
  {
    assert a + "/" + rest == a + [Sep] + rest;
    SplitHead(a, Sep, rest);
  }

  /** A filter whose first level is a literal only selects topics with that
      same first level. */
  lemma FirstLevelFixed(topic: string, pattern: string)
    requires Matches(topic, pattern)
    requires Levels(pattern)[0] != "+" && Levels(pattern)[0] != "#"
    ensures Levels(topic)[0] == Levels(pattern)[0]
  {
    var tp, pp := Levels(topic), Levels(pattern);
    if topic != pattern {
      if i :| 0 <= i < |pp| && pp[i] == "#" && PrefixAdmits(tp, pp, i) {
        assert i > 0 && LevelOk(tp, pp, 0);
      } else {
        assert LevelOk(tp, pp, 0);
      }
    }
  }

  /** `device/+/{kind2}` selects the `{kind}` topic of a device exactly when
      the two kinds agree. */
  lemma {:induction false} DeviceFilterSelectsOnlyItsKind(id: string, kind: string, kind2: string)
    requires Sep !in id && Sep !in kind && Sep !in kind2 && kind2 != "#" && kind2 != "+"
    ensures Matches("device/" + id + "/" + kind, "device/+/" + kind2) <==> kind == kind2
  {
    var topic := "device/" + id + "/" + kind;
    var pattern := "device/+/" + kind2;
    assert topic == "device" + "/" + id + "/" + kind;
    LevelsOfThree("device", id, kind);
    assert pattern == "device" + "/" + "+" + "/" + kind2;
    LevelsOfThree("device", "+", kind2);
    var pp := ["device", "+", kind2];
    assert "#" !in pp by {
      assert forall k :: 0 <= k < 3 ==> pp[k] != "#";
    }
    var tp := ["device", id, kind];
    WithoutHash(tp, pp);
    if topic == pattern {
      assert Levels(topic)[2] == Levels(pattern)[2];
    } else if LevelsMatch(tp, pp) {
      assert pp[2] != "+";
    }
    if kind == kind2 {
      assert forall j :: 0 <= j < |pp| && pp[j] != "+" ==> pp[j] == tp[j];
    }
  }
}
