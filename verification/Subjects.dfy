/** Event-bus subjects: building them, splitting them, and matching them against patterns
    (internal/schemas/subject.go and `matchSubject` in internal/eventbus/memory.go). */
module Subjects {
  import opened Lifecycle

  // Splitting and joining on dots.

  predicate DotFree(s: string) { '.' !in s }

  /** `strings.Split(s, ".")`. */
  function Split(s: string): (tokens: seq<string>)
    ensures tokens != [] && forall i :: 0 <= i < |tokens| ==> DotFree(tokens[i])
  {
    if s == "" then [""]
    else if s[0] == '.' then [""] + Split(s[1..])
    else
      var rest := Split(s[1..]);
      [[s[0]] + rest[0]] + rest[1..]
  }

  function Join(tokens: seq<string>): string
    requires tokens != []
  {
    if |tokens| == 1 then tokens[0] else tokens[0] + "." + Join(tokens[1..])
  }

  /** Joining undoes splitting, so splitting is injective. */
  lemma {:induction false} JoinSplit(s: string)
    ensures Join(Split(s)) == s
  {
    if s != "" {
      var rest := Split(s[1..]);
      JoinSplit(s[1..]);
      if s[0] == '.' {
        assert ([""] + rest)[1..] == rest;
      } else if |rest| > 1 {
        var tokens := [[s[0]] + rest[0]] + rest[1..];
        assert tokens[1..] == rest[1..];
        assert Join(tokens) == [s[0]] + (rest[0] + "." + Join(rest[1..]));
      }
    }
  }

  lemma {:induction false} SplitPrefix(t: string, s: string)
    requires DotFree(t)
    ensures Split(t + "." + s) == [t] + Split(s)
    ensures Split(t) == [t]
  {
    if t == "" {
      assert ("" + "." + s)[1..] == s;
    } else {
      SplitPrefix(t[1..], s);
      assert (t + "." + s)[1..] == t[1..] + "." + s;
      assert [t[0]] + t[1..] == t;
    }
  }

  /** Splitting undoes joining when no token contains a dot. */
  lemma {:induction false} SplitJoin(tokens: seq<string>)
    requires tokens != [] && forall i :: 0 <= i < |tokens| ==> DotFree(tokens[i])
    ensures Split(Join(tokens)) == tokens
  {
    if |tokens| == 1 {
      SplitPrefix(tokens[0], "");
      assert tokens == [tokens[0]];
    } else {
      SplitJoin(tokens[1..]);
      SplitPrefix(tokens[0], Join(tokens[1..]));
      assert tokens == [tokens[0]] + tokens[1..];
    }
  }

  // Building.

  lemma {:induction false} JoinAppend(tokens: seq<string>, t: string)
    requires tokens != []
    ensures Join(tokens + [t]) == Join(tokens) + "." + t
  {
    if |tokens| > 1 {
      JoinAppend(tokens[1..], t);
      assert (tokens + [t])[1..] == tokens[1..] + [t];
      assert Join(tokens + [t]) == tokens[0] + "." + (Join(tokens[1..]) + "." + t);
      assert Join(tokens + [t]) == (tokens[0] + "." + Join(tokens[1..])) + "." + t;
    } else {
      assert (tokens + [t])[1..] == [t];
    }
  }

  const PREFIX := "foreman"

  function Subject(parts: seq<string>): string { Join([PREFIX] + parts) }

  /** `Subject`, as the loop over the parts that it is. */
  method BuildSubject(parts: seq<string>) returns (result: string)
    ensures result == Subject(parts)
  {
    var all := [PREFIX] + parts;
    result := "";
    for i := 0 to |all|
      invariant i == 0 ==> result == ""
      invariant i > 0 ==> result == Join(all[..i])
    {
      if i > 0 {
        result := result + ".";
        JoinAppend(all[..i], all[i]);
        assert all[..i + 1] == all[..i] + [all[i]];
      }
      result := result + all[i];
    }
    assert all[..|all|] == all;
  }

  /** Splitting a built subject gives the prefix and then the parts, when these are dot-free. */
  lemma SubjectRoundTrip(parts: seq<string>)
    requires forall i :: 0 <= i < |parts| ==> DotFree(parts[i])
    ensures Split(Subject(parts)) == [PREFIX] + parts
  {
    SplitJoin([PREFIX] + parts);
  }

  // Matching.

  /** Token-wise matching: "*" is any one token, ">" the rest of the subject, possibly empty. */
  predicate Matches(ps: seq<string>, ts: seq<string>) {
    if ps == [] then ts == []
    else if ps[0] == ">" then true
    else ts != [] && (ps[0] == "*" || ps[0] == ts[0]) && Matches(ps[1..], ts[1..])
  }

  /** `strings.ContainsAny(pattern, "*>")`. */
  predicate HasWildcardChar(pattern: string) { '*' in pattern || '>' in pattern }

  lemma {:induction false} MatchesItself(ps: seq<string>)
    ensures Matches(ps, ps)
  {
    if ps != [] {
      MatchesItself(ps[1..]);
    }
  }

  lemma {:induction false} SplitKeepsChars(s: string, i: nat, c: char)
    requires i < |Split(s)| && c in Split(s)[i]
    ensures c in s
  {
    if s != "" {
      var rest := Split(s[1..]);
      if s[0] == '.' {
        SplitKeepsChars(s[1..], i - 1, c);
      } else if i > 0 || c in rest[0] {
        SplitKeepsChars(s[1..], i, c);
      }
    }
  }

  /** Without wildcard tokens, token-wise matching is equality. */
  lemma {:induction false} LiteralMatchesAreEqual(ps: seq<string>, ts: seq<string>)
    requires forall i :: 0 <= i < |ps| ==> ps[i] != "*" && ps[i] != ">"
    ensures Matches(ps, ts) <==> ps == ts
  {
    if ps != [] && ts != [] {
      LiteralMatchesAreEqual(ps[1..], ts[1..]);
      assert ps == [ps[0]] + ps[1..];
      assert ts == [ts[0]] + ts[1..];
    }
  }

  /** Both fast paths of `matchSubject` agree with token-wise matching. */
  lemma FastPathsAreSound(pattern: string, subject: string)
    ensures pattern == subject ==> Matches(Split(pattern), Split(subject))
    ensures pattern != subject && !HasWildcardChar(pattern) ==> !Matches(Split(pattern), Split(subject))
  {
    MatchesItself(Split(pattern));
    if !HasWildcardChar(pattern) {
      var ps := Split(pattern);
      forall i | 0 <= i < |ps| ensures ps[i] != "*" && ps[i] != ">" {
        if ps[i] == "*" {
          SplitKeepsChars(pattern, i, '*');
        } else if ps[i] == ">" {
          SplitKeepsChars(pattern, i, '>');
        }
      }
      LiteralMatchesAreEqual(ps, Split(subject));
      JoinSplit(pattern);
      JoinSplit(subject);
    }
  }

  /** `matchSubject` is token-wise matching, for all strings. */
  method MatchSubject(pattern: string, subject: string) returns (yes: bool)
    ensures yes <==> Matches(Split(pattern), Split(subject))
  {
    FastPathsAreSound(pattern, subject);
    if pattern == subject {
      return true;
    }
    if !HasWildcardChar(pattern) {
      return false;
    }
    var ps, ts := Split(pattern), Split(subject);
    for i := 0 to |ps|
      invariant i <= |ts|
      invariant Matches(ps, ts) <==> Matches(ps[i..], ts[i..])
    {
      if ps[i] == ">" {
        return i <= |ts|;
      }
      if i >= |ts| {
        return false;
      }
      assert ps[i..][1..] == ps[i + 1..] && ts[i..][1..] == ts[i + 1..];
      if ps[i] != "*" && ps[i] != ts[i] {
        return false;
      }
    }
    return |ps| == |ts|;
  }

  /** The "Wildcards" section of the NATS subject-based messaging documentation: ">" stands last and
      matches one or more tokens. */
  predicate NatsMatches(ps: seq<string>, ts: seq<string>) {
    if ps == [] then ts == []
    else if ts == [] then false
    else if ps == [">"] then true
    else (ps[0] == "*" || ps[0] == ts[0]) && NatsMatches(ps[1..], ts[1..])
  }

  predicate OnlyLastIsRest(ps: seq<string>) { forall i :: 0 <= i < |ps| - 1 ==> ps[i] != ">" }

  /** For patterns whose only ">" is last, the bus differs from NATS exactly when ">" is left to match
      no token at all. */
  lemma {:induction false} DiffersFromNats(ps: seq<string>, ts: seq<string>)
    requires OnlyLastIsRest(ps)
    ensures Matches(ps, ts) != NatsMatches(ps, ts)
            <==> ps != [] && ps[|ps| - 1] == ">" && Matches(ps[..|ps| - 1], ts)
    ensures NatsMatches(ps, ts) ==> Matches(ps, ts)
  {
    if |ps| == 1 {
      assert ps[..0] == [];
      assert ps == [ps[0]];
      if ps[0] != ">" && ts != [] {
        assert Matches(ps[1..], ts[1..]) <==> NatsMatches(ps[1..], ts[1..]);
      }
    } else if ps != [] && ts != [] {
      DiffersFromNats(ps[1..], ts[1..]);
      assert ps[1..][|ps[1..]| - 1] == ps[|ps| - 1];
      assert ps[..|ps| - 1][1..] == ps[1..][..|ps[1..]| - 1];
    }
  }

  /** An instance: the bus delivers to "foreman.>" what is published on "foreman". */
  lemma RestMatchesNothing()
    ensures Matches(Split("foreman.>"), Split("foreman")) && !NatsMatches(Split("foreman.>"), Split("foreman"))
  {
    SplitPrefix("foreman", ">");
    SplitPrefix(">", "");
    assert "foreman" + "." + ">" == "foreman.>";
    assert Split("foreman.>") == ["foreman", ">"] && Split("foreman") == ["foreman"];
    assert ["foreman", ">"][..1] == ["foreman"];
    MatchesItself(["foreman"]);
    DiffersFromNats(["foreman", ">"], ["foreman"]);
  }

  // No cross-talk.

  predicate Plain(part: string) { DotFree(part) && part != "*" && part != ">" }

  /** Two built subjects with plain parts match only if the parts are equal. */
  lemma NoCrossTalk(parts: seq<string>, others: seq<string>)
    requires forall i :: 0 <= i < |parts| ==> Plain(parts[i])
    requires forall i :: 0 <= i < |others| ==> DotFree(others[i])
    ensures Matches(Split(Subject(parts)), Split(Subject(others))) <==> parts == others
  {
    SubjectRoundTrip(parts);
    SubjectRoundTrip(others);
    LiteralMatchesAreEqual([PREFIX] + parts, [PREFIX] + others);
    assert ([PREFIX] + parts)[1..] == parts && ([PREFIX] + others)[1..] == others;
  }

  /** The subject of a session's lifecycle event. */
  function SessionEventSubject(sid: string, e: Event): string { Subject(["session", sid, EventName(e)]) }

  lemma WordIsDotFree(e: Event)
    ensures DotFree(EventWord(e))
  {
  }

  lemma WordsDiffer(e: Event, f: Event)
    requires EventWord(e) == EventWord(f)
    ensures e == f
  {
    var a, b := EventWord(e), EventWord(f);
    assert |a| == |b| && (|a| > 1 ==> a[0] == b[0] && a[1] == b[1]);
  }

  /** The part of a string after its last dot is determined by the string. */
  lemma LastTokenIsUnique(a: string, v: string, b: string, w: string)
    requires DotFree(v) && DotFree(w) && a + "." + v == b + "." + w
    ensures a == b && v == w
  {
    var s := a + "." + v;
    assert s[|a|] == '.' && s[|b|] == '.';
    assert |a| == |b|;
    assert a == s[..|a|] && b == s[..|b|];
    assert v == s[|a| + 1..] && w == s[|b| + 1..];
  }

  /** The subject determines the session and the lifecycle event, even if the session id has dots. */
  lemma SessionEventSubjectIsInjective(sid: string, e: Event, sid2: string, f: Event)
    requires SessionEventSubject(sid, e) == SessionEventSubject(sid2, f)
    ensures sid == sid2 && e == f
  {
    EventSubjectShape(sid, e);
    EventSubjectShape(sid2, f);
    WordIsDotFree(e);
    WordIsDotFree(f);
    LastTokenIsUnique("foreman.session." + sid + ".session", EventWord(e),
                      "foreman.session." + sid2 + ".session", EventWord(f));
    WordsDiffer(e, f);
    assert "foreman.session." + sid + ".session" == "foreman.session." + sid + "." + "session";
    assert "foreman.session." + sid2 + ".session" == "foreman.session." + sid2 + "." + "session";
    LastTokenIsUnique("foreman.session." + sid, "session", "foreman.session." + sid2, "session");
    assert sid == ("foreman.session." + sid)[16..] && sid2 == ("foreman.session." + sid2)[16..];
  }

  lemma EventSubjectShape(sid: string, e: Event)
    ensures SessionEventSubject(sid, e) == "foreman.session." + sid + ".session" + "." + EventWord(e)
  {
    SubjectOfThree("session", sid, EventName(e));
    Regroup(sid, EventWord(e));
  }

  lemma SubjectOfThree(a: string, b: string, c: string)
    ensures Subject([a, b, c]) == PREFIX + "." + (a + "." + (b + "." + c))
  {
    assert [PREFIX] + [a, b, c] == [PREFIX, a, b, c];
    assert [PREFIX, a, b, c][1..] == [a, b, c];
    assert [a, b, c][1..] == [b, c];
    assert [b, c][1..] == [c];
    assert Join([b, c]) == b + "." + c;
    assert Join([a, b, c]) == a + "." + Join([b, c]);
  }

  lemma Regroup(sid: string, word: string)
    ensures PREFIX + "." + ("session" + "." + (sid + "." + ("session." + word)))
            == "foreman.session." + sid + ".session" + "." + word
  {
    var tail := sid + "." + ("session." + word);
    assert PREFIX + "." + ("session" + "." + tail) == (PREFIX + "." + "session" + ".") + tail;
    assert PREFIX + "." + "session" + "." == "foreman.session.";
    assert tail == sid + (".session" + "." + word);
  }
}
