/** Topic names and topic filters as sequences of levels, and the recursive
    matcher that is the broker's own specification of "this filter selects this topic". */
module Levels {

  const HASH: string := "#"
  const PLUS: string := "+"
  // The sentinel the index stores after the last level.
  const NUL: string := "\0"

  /** Cuts a string at every slash, as strings.Split(s, "/") does. */
  function Split(s: string): (parts: seq<string>)
    ensures |parts| >= 1
  {
    if s == "" then [""]
    else
      var rest := Split(s[1..]);
      if s[0] == '/' then [""] + rest else [[s[0]] + rest[0]] + rest[1..]
  }

  function Join(parts: seq<string>): string
    requires |parts| >= 1
  {
    if |parts| == 1 then parts[0] else parts[0] + "/" + Join(parts[1..])
  }

  lemma {:induction false} JoinSplit(s: string)
    ensures Join(Split(s)) == s
  {
    if s != "" {
      var rest := Split(s[1..]);
      JoinSplit(s[1..]);
      if s[0] == '/' {
        assert ([""] + rest)[1..] == rest;
      } else {
        var parts := [[s[0]] + rest[0]] + rest[1..];
        assert parts[1..] == rest[1..];
        assert s == [s[0]] + s[1..];
      }
    }
  }

  lemma SplitInjective(s: string, t: string)
    ensures Split(s) == Split(t) <==> s == t
  {
    JoinSplit(s);
    JoinSplit(t);
  }

  /** Cutting makes no new character: every level is a substring without a slash. */
  lemma {:induction false} SplitCharacters(s: string)
    ensures forall k, j ::
      0 <= k < |Split(s)| && 0 <= j < |Split(s)[k]| ==> Split(s)[k][j] in s && Split(s)[k][j] != '/'
  {
    if s != "" {
      var rest := Split(s[1..]);
      SplitCharacters(s[1..]);
      forall k, j | 0 <= k < |Split(s)| && 0 <= j < |Split(s)[k]|
        ensures Split(s)[k][j] in s && Split(s)[k][j] != '/'
      {
        if s[0] == '/' {
          assert k > 0 && Split(s)[k] == rest[k - 1];
          assert rest[k - 1][j] in s[1..];
        } else if k > 0 {
          assert Split(s)[k] == rest[k];
          assert rest[k][j] in s[1..];
        } else if j > 0 {
          assert Split(s)[0] == [s[0]] + rest[0];
          assert rest[0][j - 1] in s[1..];
        }
      }
    }
  }

  /** Split undoes Join too, so it is the only way to write a string as slash-free levels. */
  lemma {:induction false} SplitJoin(parts: seq<string>)
    requires |parts| >= 1 && forall k :: 0 <= k < |parts| ==> '/' !in parts[k]
    ensures Split(Join(parts)) == parts
    decreases |parts|, |parts[0]|
  {
    var s := Join(parts);
    if parts[0] == "" {
      if |parts| > 1 {
        assert s == "/" + Join(parts[1..]);
        assert s[1..] == Join(parts[1..]);
        SplitJoin(parts[1..]);
      }
    } else {
      var shorter := [parts[0][1..]] + parts[1..];
      assert shorter[1..] == parts[1..];
      assert s == [parts[0][0]] + Join(shorter);
      assert s[1..] == Join(shorter);
      assert parts[0][0] in parts[0];
      forall k | 0 <= k < |shorter| ensures '/' !in shorter[k] {
        assert '/' !in parts[k];
      }
      SplitJoin(shorter);
      assert Split(s) == [[s[0]] + shorter[0]] + shorter[1..];
      assert [parts[0][0]] + parts[0][1..] == parts[0];
    }
  }

  /** The broker's recursive matcher. */
  predicate Match(route: seq<string>, topic: seq<string>)
  {
    if |route| == 0 then |topic| == 0
    else if |topic| == 0 then route[0] == HASH
    else if route[0] == HASH then true
    else if route[0] == PLUS || route[0] == topic[0] then Match(route[1..], topic[1..])
    else false
  }

  /** The first k levels agree: none of the filter's is "#", each is "+" or the topic's own. */
  ghost predicate AgreeTo(route: seq<string>, topic: seq<string>, k: nat)
  {
    k <= |route| && k <= |topic|
    && forall j :: 0 <= j < k ==> route[j] != HASH && (route[j] == PLUS || route[j] == topic[j])
  }

  /** The filter's first "#" is at k and everything before it agrees. */
  ghost predicate HashAt(route: seq<string>, topic: seq<string>, k: nat)
  {
    k < |route| && route[k] == HASH && AgreeTo(route, topic, k)
  }

  /** What Match decides, without recursion. */
  lemma {:induction false} MatchMeaning(route: seq<string>, topic: seq<string>)
    ensures Match(route, topic) <==>
            (exists k: nat :: HashAt(route, topic, k)) || (|route| == |topic| && AgreeTo(route, topic, |topic|))
  {
    if |route| == 0 {
    } else if route[0] == HASH {
      assert HashAt(route, topic, 0);
    } else if |topic| == 0 {
      assert forall k: nat :: HashAt(route, topic, k) ==> k == 0;
    } else if route[0] == PLUS || route[0] == topic[0] {
      MatchMeaning(route[1..], topic[1..]);
      forall k: nat ensures AgreeTo(route[1..], topic[1..], k) <==> AgreeTo(route, topic, k + 1) {
        AgreeShift(route, topic, k);
      }
      if k: nat :| HashAt(route[1..], topic[1..], k) {
        assert HashAt(route, topic, k + 1);
      }
      if k: nat :| HashAt(route, topic, k) {
        assert k > 0;
        assert HashAt(route[1..], topic[1..], k - 1);
      }
    } else {
      assert forall k: nat :: k > 0 ==> !AgreeTo(route, topic, k);
    }
  }

  lemma AgreeShift(route: seq<string>, topic: seq<string>, k: nat)
    requires |route| > 0 && |topic| > 0
    requires route[0] != HASH && (route[0] == PLUS || route[0] == topic[0])
    ensures AgreeTo(route[1..], topic[1..], k) <==> AgreeTo(route, topic, k + 1)
  {
    if AgreeTo(route[1..], topic[1..], k) {
      forall j | 0 <= j < k + 1 ensures route[j] != HASH && (route[j] == PLUS || route[j] == topic[j]) {
        if j > 0 {
          assert route[j] == route[1..][j - 1] && topic[j] == topic[1..][j - 1];
        }
      }
    }
  }

  predicate WildcardFree(levels: seq<string>)
  {
    HASH !in levels && PLUS !in levels
  }

  /** A topic name the standard allows (sections 1.5.3 and 4.7.1 of MQTT 3.1.1), as far as routing can tell. */
  predicate PlainTopic(topic: string)
  {
    var levels := Split(topic);
    WildcardFree(levels) && NUL !in levels
  }

  lemma {:induction false} PlainRouteMatchesItself(route: seq<string>, topic: seq<string>)
    requires WildcardFree(route)
    ensures Match(route, topic) <==> route == topic
  {
    MatchMeaning(route, topic);
    if Match(route, topic) {
      assert forall k: nat :: !HashAt(route, topic, k);
      assert route == topic;
    } else if route == topic {
      assert AgreeTo(route, topic, |topic|);
    }
  }

  /** A filter text without '#' and '+' matches exactly the topic with the same text. */
  lemma PlainFilterMatchesItself(filter: string, topic: string)
    requires '#' !in filter && '+' !in filter
    ensures Match(Split(filter), Split(topic)) <==> filter == topic
  {
    var route := Split(filter);
    SplitCharacters(filter);
    forall k | 0 <= k < |route| ensures route[k] != HASH && route[k] != PLUS {
      assert |route[k]| == 1 ==> route[k][0] in filter;
    }
    PlainRouteMatchesItself(route, Split(topic));
    SplitInjective(filter, topic);
  }
}
