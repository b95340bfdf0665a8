/**
 Path templates: printing a target by replacing fields one after another, and matching a target against a
 template.
 */
module Templates {
  import opened Wrappers

  datatype Part = Lit(text: string) | Hole(name: string)

  // ---- Replacing ----

  /** Every occurrence of a pattern, from the left, replaced by a value. */
  function ReplaceAll(s: string, pattern: string, value: string): string
    requires pattern != ""
  {
    if |s| < |pattern| then s
    else if pattern <= s then value + ReplaceAll(s[|pattern|..], pattern, value)
    else [s[0]] + ReplaceAll(s[1..], pattern, value)
  }

  /** The pattern occurs somewhere. */
  predicate Occurs(s: string, pattern: string) {
    |pattern| <= |s| && (pattern <= s || (s != "" && Occurs(s[1..], pattern)))
  }

  /** A field as it is written in a template. */
  function Braced(name: string): string {
    "{" + name + "}"
  }

  /** Text without an opening brace is passed over. */
  lemma {:induction false} ReplaceSkips(a: string, s: string, name: string, value: string)
    requires '{' !in a
    ensures ReplaceAll(a + s, Braced(name), value) == a + ReplaceAll(s, Braced(name), value)
  {
    if a == "" {
      assert a + s == s;
    } else {
      var all, pattern := a + s, Braced(name);
      assert all[0] == a[0] && all[1..] == a[1..] + s;
      assert a[0] in a && forall c :: c in a[1..] ==> c in a;
      ReplaceSkips(a[1..], s, name, value);
      if |all| < |pattern| {
        ShortStays(s, pattern, value);
      } else {
        assert all[0] != pattern[0];
        assert ReplaceAll(all, pattern, value) == [a[0]] + ReplaceAll(a[1..] + s, pattern, value);
        assert a == [a[0]] + a[1..];
      }
    }
  }

  lemma ShortStays(s: string, pattern: string, value: string)
    requires pattern != "" && |s| < |pattern|
    ensures ReplaceAll(s, pattern, value) == s
  {
  }

  /** At the field itself, the value is put in its place. */
  lemma ReplaceHits(s: string, pattern: string, value: string)
    requires pattern != ""
    ensures ReplaceAll(pattern + s, pattern, value) == value + ReplaceAll(s, pattern, value)
  {
    assert (pattern + s)[|pattern|..] == s;
  }

  lemma {:induction false} NoOccurrenceStays(s: string, pattern: string, value: string)
    requires pattern != "" && !Occurs(s, pattern)
    ensures ReplaceAll(s, pattern, value) == s
  {
    if |s| >= |pattern| {
      NoOccurrenceStays(s[1..], pattern, value);
    }
  }

  lemma PrefixBeforeSlash(s: string, r: string, pattern: string)
    requires '/' !in pattern
    ensures pattern <= s + ("/" + r) <==> pattern <= s
  {
    var all := s + ("/" + r);
    assert forall i :: 0 <= i < |pattern| ==> pattern[i] != '/';
    assert all[|s|] == '/';
    if |pattern| <= |s| { assert all[..|pattern|] == s[..|pattern|]; }
  }

  /** A slash is in no field, so what comes before one and what comes after it are replaced separately. */
  lemma {:induction false} ReplaceAroundSlash(s: string, r: string, name: string, value: string)
    requires '/' !in name
    ensures ReplaceAll(s + ("/" + r), Braced(name), value)
         == ReplaceAll(s, Braced(name), value) + ReplaceAll("/" + r, Braced(name), value)
  {
    var pattern, all := Braced(name), s + ("/" + r);
    assert '/' !in pattern;
    PrefixBeforeSlash(s, r, pattern);
    if s == "" {
      assert all == "/" + r;
    } else if pattern <= s {
      assert all[|pattern|..] == s[|pattern|..] + ("/" + r);
      ReplaceAroundSlash(s[|pattern|..], r, name, value);
    } else {
      assert all[1..] == s[1..] + ("/" + r) && all[0] == s[0];
      ReplaceAroundSlash(s[1..], r, name, value);
      if |all| < |pattern| {
        ShortStays(all, pattern, value);
        ShortStays(s, pattern, value);
        ShortStays("/" + r, pattern, value);
      } else if |s| < |pattern| {
        ShortStays(s, pattern, value);
        ShortStays(s[1..], pattern, value);
        assert s == [s[0]] + s[1..];
      }
    }
  }

  /** How often the pattern is replaced. */
  function Hits(s: string, pattern: string): nat
    requires pattern != ""
  {
    if |s| < |pattern| then 0
    else if pattern <= s then 1 + Hits(s[|pattern|..], pattern)
    else Hits(s[1..], pattern)
  }

  lemma {:induction false} LengthAfterReplace(s: string, pattern: string, value: string)
    requires pattern != ""
    ensures |ReplaceAll(s, pattern, value)| == |s| + Hits(s, pattern) * (|value| - |pattern|)
    ensures Occurs(s, pattern) <==> Hits(s, pattern) > 0
  {
    if |s| < |pattern| {
    } else if pattern <= s {
      LengthAfterReplace(s[|pattern|..], pattern, value);
      OneMore(Hits(s[|pattern|..], pattern), |value| - |pattern|);
    } else {
      LengthAfterReplace(s[1..], pattern, value);
    }
  }

  lemma OneMore(n: nat, d: int)
    ensures (1 + n) * d == n * d + d
  {
  }

  lemma {:induction false} ReplaceBySelf(s: string, pattern: string)
    requires pattern != ""
    ensures ReplaceAll(s, pattern, pattern) == s
  {
    if |s| < |pattern| {
    } else if pattern <= s {
      ReplaceBySelf(s[|pattern|..], pattern);
      assert s == pattern + s[|pattern|..];
    } else {
      ReplaceBySelf(s[1..], pattern);
    }
  }

  lemma {:induction false} ReplaceSameLength(s: string, pattern: string, value: string)
    requires pattern != "" && |value| == |pattern| && Occurs(s, pattern) && ReplaceAll(s, pattern, value) == s
    ensures value == pattern
  {
    if pattern <= s {
      assert (value + ReplaceAll(s[|pattern|..], pattern, value))[..|pattern|] == value;
    } else {
      assert s[1..] == ReplaceAll(s, pattern, value)[1..] == ReplaceAll(s[1..], pattern, value);
      ReplaceSameLength(s[1..], pattern, value);
    }
  }

  /** Replacing leaves a text as it was exactly when there is nothing to replace or it is replaced by itself. */
  lemma ReplaceStaysIff(s: string, pattern: string, value: string)
    requires pattern != ""
    ensures ReplaceAll(s, pattern, value) == s <==> !Occurs(s, pattern) || value == pattern
  {
    LengthAfterReplace(s, pattern, value);
    if !Occurs(s, pattern) {
      NoOccurrenceStays(s, pattern, value);
    } else if value == pattern {
      ReplaceBySelf(s, pattern);
    } else if ReplaceAll(s, pattern, value) == s {
      NonzeroProduct(Hits(s, pattern), |value| - |pattern|);
      ReplaceSameLength(s, pattern, value);
    }
  }

  lemma NonzeroProduct(n: nat, d: int)
    requires n > 0 && n * d == 0
    ensures d == 0
  {
  }

  // ---- Matching ----

  /** What a field may stand for: a file path anything, every other field one segment. */
  predicate MayBe(name: string, text: string) {
    text != "" && (name == "file_path" || '/' !in text)
  }

  /** The whole target read along the template; each field takes as much as it can while the rest still matches. */
  function Match(parts: seq<Part>, target: string): Option<map<string, string>>
    decreases |parts|, |target| + 1
  {
    if parts == [] then if target == "" then Some(map[]) else None
    else
      match parts[0]
      case Lit(text) => if text <= target then Match(parts[1..], target[|text|..]) else None
      case Hole(name) => Longest(parts, target, |target|)
  }

  function Longest(parts: seq<Part>, target: string, k: nat): Option<map<string, string>>
    requires parts != [] && parts[0].Hole? && k <= |target|
    decreases |parts|, k
  {
    if k == 0 then None
    else
      var rest := Match(parts[1..], target[k..]);
      if MayBe(parts[0].name, target[..k]) && rest.Some? then Some(rest.value[parts[0].name := target[..k]])
      else Longest(parts, target, k - 1)
  }

  /** The rest of a template begins with a slash, or there is none. */
  predicate SlashFollows(parts: seq<Part>) {
    parts == [] || (parts[0].Lit? && parts[0].text != "" && parts[0].text[0] == '/')
  }

  /** A field for one segment takes exactly the text up to the next slash. */
  lemma {:induction false} SegmentTaken(parts: seq<Part>, v: string, u: string, k: nat)
    requires parts != [] && parts[0].Hole? && parts[0].name != "file_path" && SlashFollows(parts[1..])
    requires v != "" && '/' !in v && (u == "" || u[0] == '/') && |v| <= k <= |v + u|
    ensures Longest(parts, v + u, k) == Took(parts, v, u)
  {
    var t := v + u;
    if k > |v| {
      assert t[..k][|v|] == '/';
      SegmentTaken(parts, v, u, k - 1);
    } else {
      assert t[..k] == v && t[k..] == u;
      if Match(parts[1..], u).None? { NothingShorter(parts, v, u, k - 1); }
    }
  }

  function Took(parts: seq<Part>, v: string, u: string): Option<map<string, string>>
    requires parts != [] && parts[0].Hole?
  {
    match Match(parts[1..], u)
    case None => None
    case Some(rest) => Some(rest[parts[0].name := v])
  }

  lemma {:induction false} NothingShorter(parts: seq<Part>, v: string, u: string, k: nat)
    requires parts != [] && parts[0].Hole? && parts[0].name != "file_path" && SlashFollows(parts[1..])
    requires '/' !in v && k < |v|
    ensures Longest(parts, v + u, k) == None
  {
    if k > 0 {
      var t := v + u;
      assert t[k..][0] == v[k] && v[k] in v;
      assert Match(parts[1..], t[k..]).None?;
      NothingShorter(parts, v, u, k - 1);
    }
  }

  lemma SegmentMatches(parts: seq<Part>, v: string, u: string)
    requires parts != [] && parts[0].Hole? && parts[0].name != "file_path" && SlashFollows(parts[1..])
    requires v != "" && '/' !in v && (u == "" || u[0] == '/')
    ensures Match(parts, v + u) == Took(parts, v, u)
  {
    SegmentTaken(parts, v, u, |v + u|);
  }

  /** A text that begins with a slash is no segment. */
  lemma {:induction false} SlashIsNoSegment(parts: seq<Part>, target: string, k: nat)
    requires parts != [] && parts[0].Hole? && parts[0].name != "file_path"
    requires k <= |target| && (target == "" || target[0] == '/')
    ensures Longest(parts, target, k) == None
  {
    if k > 0 {
      assert target[..k][0] == '/';
      SlashIsNoSegment(parts, target, k - 1);
    }
  }

  /** A file path at the end of a template takes all there is. */
  lemma FilePathTaken(target: string)
    requires target != ""
    ensures Match([Hole("file_path")], target) == Some(map["file_path" := target])
  {
    assert target[|target|..] == "" && target[..|target|] == target;
    var parts := [Hole("file_path")];
    assert parts[1..] == [] && Match([], "") == Some(map[]);
    assert Longest(parts, target, |target|) == Some(map[]["file_path" := target]);
  }

  lemma LiteralMatches(parts: seq<Part>, target: string)
    requires parts != [] && parts[0].Lit?
    ensures Match(parts, parts[0].text + target) == Match(parts[1..], target)
  {
    assert (parts[0].text + target)[|parts[0].text|..] == target;
  }

  lemma {:induction false} LongestIsSplit(parts: seq<Part>, target: string, k: nat) returns (j: nat)
    requires parts != [] && parts[0].Hole? && k <= |target| && Longest(parts, target, k).Some?
    ensures 0 < j <= k && Match(parts[1..], target[j..]).Some?
    ensures Longest(parts, target, k) == Some(Match(parts[1..], target[j..]).value[parts[0].name := target[..j]])
  {
    if MayBe(parts[0].name, target[..k]) && Match(parts[1..], target[k..]).Some? {
      j := k;
    } else {
      j := LongestIsSplit(parts, target, k - 1);
    }
  }

  /** Whatever a two-field template reads, printing it again gives the target. */
  lemma MatchPrintsBack(a: string, n: string, b: string, m: string, target: string)
    requires n != m && Match([Lit(a), Hole(n), Lit(b), Hole(m)], target).Some?
    ensures var got := Match([Lit(a), Hole(n), Lit(b), Hole(m)], target).value;
      n in got && m in got && got.Keys == {n, m} && target == a + got[n] + b + got[m]
  {
    var parts := [Lit(a), Hole(n), Lit(b), Hole(m)];
    assert parts[1..] == [Hole(n), Lit(b), Hole(m)] && parts[1..][1..] == [Lit(b), Hole(m)];
    assert [Lit(b), Hole(m)][1..] == [Hole(m)] && [Hole(m)][1..] == [];
    var u := target[|a|..];
    var j := LongestIsSplit(parts[1..], u, |u|);
    var w := u[j..][|b|..];
    var i := LongestIsSplit([Hole(m)], w, |w|);
    assert w[i..] == "" && w[..i] == w;
    assert u == u[..j] + (b + w);
  }

  lemma MatchesTwo(a: string, n: string, b: string, v: string, w: string)
    requires n != "file_path" && v != "" && '/' !in v && b != "" && b[0] == '/' && w != ""
    ensures Match([Lit(a), Hole(n), Lit(b), Hole("file_path")], a + v + b + w) == Some(map[n := v, "file_path" := w])
  {
    var parts := [Lit(a), Hole(n), Lit(b), Hole("file_path")];
    assert parts[1..] == [Hole(n), Lit(b), Hole("file_path")] && parts[1..][1..] == [Lit(b), Hole("file_path")];
    assert [Lit(b), Hole("file_path")][1..] == [Hole("file_path")];
    assert a + v + b + w == a + (v + (b + w));
    LiteralMatches(parts, v + (b + w));
    SegmentMatches(parts[1..], v, b + w);
    LiteralMatches([Lit(b), Hole("file_path")], w);
    FilePathTaken(w);
    assert map["file_path" := w][n := v] == map[n := v, "file_path" := w];
  }
}
