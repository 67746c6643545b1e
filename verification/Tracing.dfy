/** Expansion of environment references in configuration values, and the traceparent header. */
module Tracing {
  import opened Strings

  /** The environment: variables that are set, possibly to the empty string. */
  type Env = map<string, string>

  // ----- Expansion -----

  predicate PairAt(s: string, i: nat, c: char, d: char) {
    i + 1 < |s| && s[i] == c && s[i + 1] == d
  }

  /** The first position of two characters in a row, or the length. */
  function FindPair(s: string, c: char, d: char): (k: nat)
    ensures k <= |s| && (k < |s| ==> PairAt(s, k, c, d))
    ensures forall i: nat :: i < k ==> !PairAt(s, i, c, d)
  {
    if |s| < 2 then |s|
    else if s[0] == c && s[1] == d then 0
    else
      var k := FindPair(s[1..], c, d);
      assert forall i: nat :: PairAt(s[1..], i, c, d) <==> PairAt(s, i + 1, c, d);
      assert forall i: nat :: 0 < i < k + 1 ==> (PairAt(s, i, c, d) <==> PairAt(s[1..], i - 1, c, d));
      k + 1
  }

  /** What stands for a reference: the variable if it is set and not empty, else what follows the
      first ":-", else nothing. */
  function Replacement(env: Env, expr: string): string {
    var delim := FindPair(expr, ':', '-');
    var key := expr[..delim];
    var fallback := if delim < |expr| then expr[delim + 2..] else "";
    if key in env && env[key] != "" then env[key] else fallback
  }

  /** The positions of the first and the last character of the first complete reference, if there
      is one. */
  datatype Reference = At(open: nat, end: nat) | Nowhere

  function FirstReference(s: string): (r: Reference)
    ensures r.At? ==> r.open + 2 <= r.end < |s|
  {
    var open := FindPair(s, '$', '{');
    if open == |s| then Nowhere
    else
      var end := open + 2 + Find(s[open + 2..], '}');
      if end == |s| then Nowhere else At(open, end)
  }

  /** One pass from left to right; what is substituted is not looked at again. */
  function Expand(env: Env, s: string): string
    decreases |s|
  {
    match FirstReference(s)
    case Nowhere => s
    case At(open, end) => s[..open] + Replacement(env, s[open + 2..end]) + Expand(env, s[end + 1..])
  }

  /** The expander's loop.  The value may grow without bound, but what is left of it shrinks. */
  method ResolveEnv(env: Env, input: string) returns (value: string)
    ensures value == Expand(env, input)
  {
    hide Expand, Replacement, Find, FindPair;
    value := input;
    var pos: nat := 0;
    assert input[..0] + Expand(env, input[0..]) == Expand(env, input) by {
      assert input[0..] == input;
    }
    while true
      invariant pos <= |value|
      invariant value[..pos] + Expand(env, value[pos..]) == Expand(env, input)
      decreases |value| - pos
    {
      ExpandOnce(env, value[pos..]);
      var open := FindPair(value[pos..], '$', '{');
      if open == |value[pos..]| {
        assert value == value[..pos] + value[pos..];
        break;
      }
      PairFits(value[pos..], open, '$', '{');
      var length := Find(value[pos..][open + 2..], '}');
      var end := open + 2 + length;
      if end == |value[pos..]| {
        assert value == value[..pos] + value[pos..];
        break;
      }
      var replacement := Replacement(env, value[pos..][open + 2..end]);
      Regroup(value[..pos], value[pos..][..open], replacement, Expand(env, value[pos..][end + 1..]));
      Spliced(value, pos, open, end, replacement);
      value := value[..pos + open] + replacement + value[pos + end + 1..];
      pos := pos + open + |replacement|;
    }
  }

  lemma PairFits(s: string, k: nat, c: char, d: char)
    requires k < |s| && PairAt(s, k, c, d)
    ensures k + 2 <= |s|
  {}

  lemma ExpandOnce(env: Env, s: string)
    ensures match FirstReference(s)
            case Nowhere => Expand(env, s) == s
            case At(open, end) =>
              Expand(env, s) == s[..open] + Replacement(env, s[open + 2..end]) + Expand(env, s[end + 1..])
  {}

  lemma Spliced(value: string, pos: nat, open: nat, end: nat, replacement: string)
    requires pos <= |value| && open <= end && pos + end < |value|
    ensures var value' := value[..pos + open] + replacement + value[pos + end + 1..];
            && value'[..pos + open + |replacement|] == value[..pos] + value[pos..][..open] + replacement
            && value'[pos + open + |replacement|..] == value[pos..][end + 1..]
  {}

  lemma Regroup(a: string, b: string, c: string, d: string)
    ensures a + (b + c + d) == (a + b + c) + d
  {}

  /** A configuration value as its author means it: text, and references to variables between pieces of
      it, with or without a fallback. */
  datatype Template = Last(text: string) | Then(text: string, key: string, fallback: Fallback, rest: Template)

  datatype Fallback = NoFallback | Or(value: string)

  function PrintReference(key: string, fallback: Fallback): string {
    match fallback
    case NoFallback => key
    case Or(value) => key + ":-" + value
  }

  function Print(t: Template): string {
    match t
    case Last(text) => text
    case Then(text, key, fallback, rest) => text + "${" + PrintReference(key, fallback) + "}" + Print(rest)
  }

  /** A variable that is set and not empty stands for itself, another one for the fallback. */
  function Meaning(env: Env, t: Template): string {
    match t
    case Last(text) => text
    case Then(text, key, fallback, rest) =>
      text + (if key in env && env[key] != "" then env[key] else if fallback.Or? then fallback.value else "")
      + Meaning(env, rest)
  }

  /** No text in front of a reference contains the opening of one, no reference contains the
      closing of one and no key the mark of a fallback, and nothing after the last one is a complete
      reference. */
  ghost predicate Readable(t: Template) {
    match t
    case Last(text) => FirstReference(text) == Nowhere
    case Then(text, key, fallback, rest) =>
      && (forall i: nat :: !PairAt(text, i, '$', '{')) && (forall i: nat :: !PairAt(key, i, ':', '-'))
      && '}' !in PrintReference(key, fallback) && Readable(rest)
  }

  /** What a reference stands for. */
  lemma ReplacementMeans(env: Env, key: string, fallback: Fallback)
    requires forall i: nat :: !PairAt(key, i, ':', '-')
    ensures Replacement(env, PrintReference(key, fallback)) ==
              if key in env && env[key] != "" then env[key] else if fallback.Or? then fallback.value else ""
  {
    match fallback
    case NoFallback =>
      PairUnique(key, ':', '-', |key|);
      assert key[..|key|] == key;
    case Or(value) =>
      var expr := key + ":-" + value;
      MarkIsFound(key, value);
      assert expr[..|key|] == key && expr[|key| + 2..] == value;
  }

  lemma MarkIsFound(key: string, value: string)
    requires forall i: nat :: !PairAt(key, i, ':', '-')
    ensures FindPair(key + ":-" + value, ':', '-') == |key|
  {
    var s := key + ":-" + value;
    assert s[|key|] == ':' && s[|key| + 1] == '-';
    assert PairAt(s, |key|, ':', '-');
    forall i: nat | i < |key|
      ensures !PairAt(s, i, ':', '-')
    {
      assert i + 1 < |key| ==> s[i] == key[i] && s[i + 1] == key[i + 1];
      assert !PairAt(key, i, ':', '-');
    }
    PairUnique(s, ':', '-', |key|);
  }

  /** Every expression is a key with or without a fallback. */
  lemma EveryExpressionIsAReference(expr: string) returns (key: string, fallback: Fallback)
    ensures PrintReference(key, fallback) == expr && forall i: nat :: !PairAt(key, i, ':', '-')
  {
    var mark := FindPair(expr, ':', '-');
    key, fallback := expr[..mark], if mark == |expr| then NoFallback else Or(expr[mark + 2..]);
    forall i: nat
      ensures !PairAt(key, i, ':', '-')
    {
      assert i < mark ==> !PairAt(expr, i, ':', '-');
    }
    if mark == |expr| {
      assert expr[..mark] == expr;
    } else {
      assert expr == expr[..mark] + ":-" + expr[mark + 2..];
    }
  }

  /** Every string is a readable template. */
  lemma {:induction false} EveryValueIsATemplate(s: string) returns (t: Template)
    ensures Readable(t) && Print(t) == s
    decreases |s|
  {
    match FirstReference(s)
    case Nowhere => t := Last(s);
    case At(open, end) =>
      var rest := EveryValueIsATemplate(s[end + 1..]);
      var key, fallback := EveryExpressionIsAReference(s[open + 2..end]);
      t := Then(s[..open], key, fallback, rest);
      TextBeforeReference(s, open, end);
      assert Print(t) == s[..open] + "${" + s[open + 2..end] + "}" + s[end + 1..];
  }

  lemma TextBeforeReference(s: string, open: nat, end: nat)
    requires FirstReference(s) == At(open, end)
    ensures forall i: nat :: !PairAt(s[..open], i, '$', '{')
    ensures '}' !in s[open + 2..end]
    ensures s == s[..open] + "${" + s[open + 2..end] + "}" + s[end + 1..]
  {
    forall i: nat
      ensures !PairAt(s[..open], i, '$', '{')
    {
      assert i < open ==> !PairAt(s, i, '$', '{');
    }
    assert s[open + 2..end] == s[open + 2..][..end - (open + 2)];
    assert PairAt(s, open, '$', '{') && s[end] == '}';
  }

  lemma PairUnique(s: string, c: char, d: char, k: nat)
    requires k <= |s| && (k < |s| ==> PairAt(s, k, c, d))
    requires forall i: nat :: i < k ==> !PairAt(s, i, c, d)
    ensures FindPair(s, c, d) == k
  {}

  lemma OpeningIsFound(text: string, more: string)
    requires forall i: nat :: !PairAt(text, i, '$', '{')
    ensures FindPair(text + "${" + more, '$', '{') == |text|
  {
    var s := text + "${" + more;
    assert s[|text|] == '$' && s[|text| + 1] == '{';
    assert PairAt(s, |text|, '$', '{');
    forall i: nat | i < |text|
      ensures !PairAt(s, i, '$', '{')
    {
      assert i + 1 < |text| ==> s[i] == text[i] && s[i + 1] == text[i + 1];
      assert !PairAt(text, i, '$', '{');
    }
    PairUnique(s, '$', '{', |text|);
  }

  lemma ClosingIsFound(expr: string, more: string)
    requires '}' !in expr
    ensures Find(expr + "}" + more, '}') == |expr|
  {
    assert (expr + "}" + more)[..|expr|] == expr;
    FindUnique(expr + "}" + more, '}', |expr|);
  }

  /** Expansion gives a template its meaning, whatever the variables contain: substituted text is
      never taken for a reference. */
  lemma {:induction false} ExpansionIsMeaning(env: Env, t: Template)
    requires Readable(t)
    ensures Expand(env, Print(t)) == Meaning(env, t)
    decreases t
  {
    hide Replacement, FirstReference, PrintReference;
    var s := Print(t);
    match t
    case Last(_) => {}
    case Then(text, key, fallback, rest) =>
      var expr := PrintReference(key, fallback);
      ReplacementMeans(env, key, fallback);
      ExpansionIsMeaning(env, rest);
      ReferenceFound(text, expr, Print(rest));
      assert s[..|text|] == text;
      assert s[|text| + 2..|text| + 2 + |expr|] == expr;
      assert s[|text| + 2 + |expr| + 1..] == Print(rest);
  }

  lemma ReferenceFound(text: string, expr: string, more: string)
    requires (forall i: nat :: !PairAt(text, i, '$', '{')) && '}' !in expr
    ensures FirstReference(text + "${" + expr + "}" + more) == At(|text|, |text| + 2 + |expr|)
  {
    var s := text + "${" + expr + "}" + more;
    assert s == text + "${" + (expr + "}" + more);
    OpeningIsFound(text, expr + "}" + more);
    assert s[|text| + 2..] == expr + "}" + more;
    ClosingIsFound(expr, more);
  }

  // ----- The traceparent header -----

  datatype Context = Context(traceId: string, spanId: string, traceFlags: string) {
    predicate Valid() { traceId != "" && spanId != "" }
  }

  const NO_CONTEXT := Context("", "", "01")

  /** At most `n` parts; what follows the dash after the last one is dropped. */
  function Parts(s: string, n: nat): (parts: seq<string>)
    ensures |parts| <= n
  {
    if n == 0 then []
    else
      var dash := Find(s, '-');
      if dash == |s| then [s] else [s[..dash]] + Parts(s[dash + 1..], n - 1)
  }

  const MAX_PARTS: nat := 4

  function Extract(header: string): Context {
    var parts := Parts(header, MAX_PARTS);
    if header == "" || |parts| < MAX_PARTS || parts[0] != "00" then NO_CONTEXT
    else if |parts[1]| == 32 && |parts[2]| == 16 then Context(parts[1], parts[2], parts[3])
    else NO_CONTEXT
  }

  function Build(c: Context): string {
    if !c.Valid() then "" else "00-" + c.traceId + "-" + c.spanId + "-" + c.traceFlags
  }

  method ExtractTraceparent(header: string) returns (c: Context)
    ensures c == Extract(header)
  {
    hide Parts;
    if |header| == 0 {
      return NO_CONTEXT;
    }
    var parts, index := SplitHeader(header);
    if index < MAX_PARTS {
      return NO_CONTEXT;
    }
    if parts[0] != "00" {
      return NO_CONTEXT;
    }
    c := NO_CONTEXT;
    if |parts[1]| == 32 && |parts[2]| == 16 {
      c := Context(parts[1], parts[2], parts[3]);
    }
  }

  method SplitHeader(header: string) returns (parts: array<string>, index: nat)
    ensures parts.Length == MAX_PARTS && index <= MAX_PARTS && parts[..index] == Parts(header, MAX_PARTS)
  {
    hide Find, Parts;
    parts := new string[MAX_PARTS](i => "");
    index := 0;
    var start := 0;
    assert header[0..] == header;
    while index < MAX_PARTS
      invariant index <= MAX_PARTS && start <= |header| && fresh(parts)
      invariant parts[..index] + Parts(header[start..], MAX_PARTS - index) == Parts(header, MAX_PARTS)
      decreases MAX_PARTS - index
    {
      var rest := header[start..];
      NextPart(rest, MAX_PARTS - index);
      ghost var before := parts[..index];
      var dash := Find(rest, '-');
      parts[index] := rest[..dash];
      index := index + 1;
      assert parts[..index] == before + [rest[..dash]];
      if dash == |rest| {
        assert rest[..dash] == rest;
        return;
      }
      assert header[start + dash + 1..] == rest[dash + 1..];
      RegroupParts(before, rest[..dash], Parts(rest[dash + 1..], MAX_PARTS - index));
      start := start + dash + 1;
    }
    NoPart(header[start..]);
  }

  lemma RegroupParts(a: seq<string>, b: string, c: seq<string>)
    ensures a + ([b] + c) == (a + [b]) + c
  {}

  lemma NextPart(s: string, n: nat)
    requires n > 0
    ensures var dash := Find(s, '-');
            Parts(s, n) == if dash == |s| then [s] else [s[..dash]] + Parts(s[dash + 1..], n - 1)
  {}

  lemma NoPart(s: string)
    ensures Parts(s, 0) == []
  {}

  /** A part in front of a dash is the first one. */
  lemma PartBeforeDash(part: string, rest: string, n: nat)
    requires '-' !in part && n > 0
    ensures Parts(part + "-" + rest, n) == [part] + Parts(rest, n - 1)
  {
    var s := part + "-" + rest;
    assert s[..|part|] == part && s[|part| + 1..] == rest;
    FindUnique(s, '-', |part|);
  }

  lemma LastPart(part: string, n: nat)
    requires '-' !in part && n > 0
    ensures Parts(part, n) == [part]
  {}

  lemma {:induction false} PartsHaveNoDash(s: string, n: nat)
    ensures forall i :: 0 <= i < |Parts(s, n)| ==> '-' !in Parts(s, n)[i]
    decreases n
  {
    if n == 0 {
    } else {
      var dash := Find(s, '-');
      if dash == |s| {
        assert s[..dash] == s;
      } else {
        PartsHaveNoDash(s[dash + 1..], n - 1);
      }
    }
  }

  predicate WellFormed(c: Context) {
    && |c.traceId| == 32 && |c.spanId| == 16
    && '-' !in c.traceId && '-' !in c.spanId && '-' !in c.traceFlags
  }

  lemma ExtractedIsWellFormed(header: string)
    ensures Extract(header) == NO_CONTEXT || WellFormed(Extract(header))
  {
    hide Parts;
    PartsHaveNoDash(header, MAX_PARTS);
  }

  lemma PartsOfBuilt(c: Context)
    requires c.Valid() && '-' !in c.traceId && '-' !in c.spanId && '-' !in c.traceFlags
    ensures Parts(Build(c), MAX_PARTS) == ["00", c.traceId, c.spanId, c.traceFlags]
  {
    hide Parts;
    var s3 := c.traceFlags;
    var s2 := c.spanId + "-" + s3;
    var s1 := c.traceId + "-" + s2;
    assert Build(c) == "00" + "-" + s1;
    PartBeforeDash("00", s1, MAX_PARTS);
    PartBeforeDash(c.traceId, s2, MAX_PARTS - 1);
    PartBeforeDash(c.spanId, s3, MAX_PARTS - 2);
    LastPart(s3, MAX_PARTS - 3);
  }

  /** A context survives the header exactly when it is the empty one, or its ids have their full
      length and nothing in it contains a dash. */
  lemma TraceparentRoundTrip(c: Context)
    ensures Extract(Build(c)) == c <==> c == NO_CONTEXT || WellFormed(c)
  {
    hide Parts;
    ExtractedIsWellFormed(Build(c));
    if WellFormed(c) {
      PartsOfBuilt(c);
      assert Build(c)[0] == '0';
    }
  }

  function JoinDashed(parts: seq<string>): string
    requires parts != []
  {
    if |parts| == 1 then parts[0] else parts[0] + "-" + JoinDashed(parts[1..])
  }

  predicate BeginsWith(s: string, part: string) {
    part <= s && (part == s || s[|part|] == '-')
  }

  lemma PrefixAfterDash(first: string, s: string, part: string)
    requires BeginsWith(s, part)
    ensures BeginsWith(first + "-" + s, first + "-" + part)
  {}

  lemma {:induction false} PartsAreAPrefix(s: string, n: nat)
    requires n > 0
    ensures Parts(s, n) != [] && BeginsWith(s, JoinDashed(Parts(s, n)))
    decreases n
  {
    hide Parts, Find, BeginsWith;
    NextPart(s, n);
    var dash := Find(s, '-');
    if dash == |s| {
      Whole(s);
    } else if n == 1 {
      NoPart(s[dash + 1..]);
      CutAtDash(s, dash);
    } else {
      var rest := s[dash + 1..];
      PartsAreAPrefix(rest, n - 1);
      assert Parts(s, n)[1..] == Parts(rest, n - 1);
      assert s == s[..dash] + "-" + rest;
      PrefixAfterDash(s[..dash], rest, JoinDashed(Parts(rest, n - 1)));
    }
  }

  lemma Whole(s: string)
    ensures BeginsWith(s, s)
  {}

  lemma CutAtDash(s: string, dash: nat)
    requires dash < |s| && s[dash] == '-'
    ensures BeginsWith(s, s[..dash])
  {}

  lemma JoinDashedUnfolds(part: string, more: seq<string>)
    requires more != []
    ensures JoinDashed([part] + more) == part + "-" + JoinDashed(more)
  {}

  lemma BuiltIsJoined(c: Context)
    requires c.Valid()
    ensures JoinDashed(["00", c.traceId, c.spanId, c.traceFlags]) == Build(c)
  {
    hide JoinDashed;
    JoinDashedUnfolds("00", [c.traceId, c.spanId, c.traceFlags]);
    JoinDashedUnfolds(c.traceId, [c.spanId, c.traceFlags]);
    JoinDashedUnfolds(c.spanId, [c.traceFlags]);
    JoinOne(c.traceFlags);
    assert ["00"] + [c.traceId, c.spanId, c.traceFlags] == ["00", c.traceId, c.spanId, c.traceFlags];
    assert [c.traceId] + [c.spanId, c.traceFlags] == [c.traceId, c.spanId, c.traceFlags];
    assert [c.spanId] + [c.traceFlags] == [c.spanId, c.traceFlags];
    assert "00" + "-" + (c.traceId + "-" + (c.spanId + "-" + c.traceFlags)) == Build(c);
  }

  lemma JoinOne(part: string)
    ensures JoinDashed([part]) == part
  {}

  lemma FourParts(parts: seq<string>)
    requires |parts| == MAX_PARTS
    ensures parts == [parts[0], parts[1], parts[2], parts[3]]
  {}

  /** An accepted header begins with the header of the context it carries; anything more starts
      with a dash. */
  lemma ExtractedHeader(header: string)
    requires Extract(header).Valid()
    ensures BeginsWith(header, Build(Extract(header)))
  {
    hide Parts, BeginsWith, Build, JoinDashed;
    PartsAreAPrefix(header, MAX_PARTS);
    BuiltIsJoined(Extract(header));
    FourParts(Parts(header, MAX_PARTS));
  }

  /** The header spelled out, and what is taken from it; from any other header nothing is, and the flags
      then say "sampled". */
  lemma HeaderSpelledOut(traceId: string, spanId: string, flags: string)
    requires |traceId| == 32 && |spanId| == 16 && '-' !in traceId && '-' !in spanId && '-' !in flags
    ensures Build(Context(traceId, spanId, flags)) == "00-" + traceId + "-" + spanId + "-" + flags
    ensures Extract("00-" + traceId + "-" + spanId + "-" + flags) == Context(traceId, spanId, flags)
  {
    hide Extract;
    TraceparentRoundTrip(Context(traceId, spanId, flags));
  }

  /** A context that lacks an id has no header. */
  lemma NoHeader(c: Context)
    ensures Build(c) == "" <==> c.traceId == "" || c.spanId == ""
  {}

  lemma NothingExtracted(header: string)
    requires Extract(header).traceId == "" || Extract(header).spanId == ""
    ensures Extract(header) == Context("", "", "01")
  {
    ExtractedIsWellFormed(header);
  }
}
