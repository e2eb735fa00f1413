/**
 * The exclusion filter: a list of names, addresses, ranges and ports, with prefixed entries that put
 * names back on the default route or force them off it, and the lookups made against it.
 *
 * Recognising addresses, ranges and ports in text is a parameter, `foreign`; so are the cache of
 * names known for an address and the comparison of addresses with ranges.
 */
module DomainFilter {
  import opened Prelude

  // ---- Text ----

  const WWW: string := "www."

  function Lower(c: char): char {
    if 'A' <= c <= 'Z' then (c as int + 32) as char else c
  }

  function LowerAll(s: string): (r: string)
    ensures |r| == |s|
  {
    seq(|s|, i requires 0 <= i < |s| => Lower(s[i]))
  }

  predicate IsSpace(c: char) {
    c == ' ' || '\t' <= c <= '\r'
  }

  predicate IsNameChar(c: char) {
    'a' <= c <= 'z' || 'A' <= c <= 'Z' || '0' <= c <= '9' || c == '-' || c == '_' || c == '.'
  }

  function StripWww(s: string): string {
    if WWW <= s then s[4..] else s
  }

  // ---- Entries ----

  datatype Special = Address(address: nat) | Range(range: nat) | Port(port: nat)

  type Foreign = string -> Option<Special>

  // `Name(text, sub)` matches names under `text` if `sub`, and `text` itself otherwise.
  datatype Parsed = Found(special: Special) | Name(text: string, sub: bool) | Malformed

  predicate IsName(s: string) {
    s != [] && forall i | 0 <= i < |s| :: IsNameChar(s[i]) && (s[i] == '.' ==> i > 0 && s[i - 1] != '.')
  }

  /** `parse_entry`. */
  function Parse(foreign: Foreign, entry: string): Parsed {
    if foreign(entry).Some? then Found(foreign(entry).value)
    else
      var text := LowerAll(entry);
      if "*." <= text then (if IsName(text[2..]) then Name(text[2..], true) else Malformed)
      else if IsName(text) then Name(StripWww(text), false) else Malformed
  }

  // ---- Names ----

  datatype Flags = Flags(exact: bool, sub: bool)

  type Names = map<string, Flags>

  /** `s` is `t`, or what follows one of its dots. */
  predicate LabelSuffix(s: string, t: string) {
    |s| <= |t| && t[|t| - |s|..] == s && (|s| == |t| || (s != [] && t[|t| - |s| - 1] == '.'))
  }

  /** The rule: an exact entry is the name without `www.`, a wildcard entry a suffix of labels of it. */
  predicate Covers(text: string, flags: Flags, name: string) {
    || (flags.exact && text == StripWww(name))
    || (flags.sub && LabelSuffix(text, StripWww(name)) && |text| < |name|)
  }

  // The first dot.
  function Dot(s: string): (r: Option<nat>)
    ensures r.Some? ==> r.value < |s| && s[r.value] == '.' && forall i | 0 <= i < r.value :: s[i] != '.'
    ensures r.None? ==> '.' !in s
  {
    if s == [] then None
    else if s[0] == '.' then Some(0)
    else
      var r := Dot(s[1..]);
      if r.None? then None else Some(r.value + 1)
  }

  predicate Hit(names: Names, seek: string, name: string) {
    && seek in names
    && (|| (names[seek].exact && (|seek| == |name| || (WWW <= name && |seek| + 4 == |name|)))
        || (names[seek].sub && |seek| < |name|))
  }

  /** The lookup loop from `seek` on. */
  function Seek(names: Names, seek: string, name: string): Option<nat>
    decreases |seek|
  {
    if Hit(names, seek, name) then Some(|seek|)
    else
      var dot := Dot(seek);
      if dot.None? || dot.value + 1 == |seek| then None else Seek(names, seek[dot.value + 1..], name)
  }

  function MatchedLength(names: Names, domain: string): Option<nat> {
    var name := LowerAll(domain);
    Seek(names, StripWww(name), name)
  }

  /** `matched_domain_length`: `seek` is shortened label by label. */
  method MatchedDomainLength(names: Names, domain: string) returns (r: Option<nat>)
    ensures r == MatchedLength(names, domain)
  {
    var name := LowerAll(domain);
    var prefixed := WWW <= name;
    var seek := if prefixed then name[4..] else name;
    while true
      invariant Seek(names, seek, name) == MatchedLength(names, domain)
      decreases |seek|
    {
      if seek in names {
        var flags := names[seek];
        if (flags.exact && (|seek| == |name| || (prefixed && |seek| + 4 == |name|))) || (flags.sub && |seek| < |name|) {
          return Some(|seek|);
        }
      }
      var dot := Dot(seek);
      if dot.None? || dot.value + 1 == |seek| {
        return None;
      }
      seek := seek[dot.value + 1..];
    }
  }

  /** A shorter suffix of labels lies behind the first dot. */
  predicate FirstDot(t: string, d: nat) {
    d < |t| && t[d] == '.' && forall i | 0 <= i < d :: t[i] != '.'
  }

  lemma SuffixBehindDot(s: string, t: string, d: nat)
    requires LabelSuffix(s, t) && |s| < |t| && FirstDot(t, d)
    ensures d + 1 < |t| && LabelSuffix(s, t[d + 1..])
  {
    assert t[|t| - |s| - 1] == '.';
    SuffixCut(s, t, d + 1);
  }

  lemma SuffixCut(s: string, t: string, n: nat)
    requires LabelSuffix(s, t) && n <= |t| - |s| && s != []
    ensures LabelSuffix(s, t[n..])
  {
    var u := t[n..];
    assert u[|u| - |s|..] == t[|t| - |s|..];
    assert |s| < |u| ==> u[|u| - |s| - 1] == t[|t| - |s| - 1];
  }

  lemma SuffixOfSuffix(s: string, t: string, d: nat)
    requires d + 1 < |t| && t[d] == '.' && LabelSuffix(s, t[d + 1..])
    ensures LabelSuffix(s, t)
  {
    var u := t[d + 1..];
    assert t[|t| - |s|..] == u[|u| - |s|..];
    if |s| < |u| {
      assert t[|t| - |s| - 1] == u[|u| - |s| - 1];
    }
  }

  lemma HitIsCover(names: Names, seek: string, name: string)
    requires LabelSuffix(seek, StripWww(name))
    ensures Hit(names, seek, name) <==> seek in names && Covers(seek, names[seek], name)
  {
    var t := StripWww(name);
    assert |seek| == |t| ==> seek == t;
  }

  /** An entry the loop may still find from `seek` on. */
  ghost predicate Candidate(names: Names, t: string, name: string, seek: string) {
    t in names && Covers(t, names[t], name) && LabelSuffix(t, seek)
  }

  /** `r` is the length of the longest candidate, if there is one. */
  ghost predicate LongestFrom(names: Names, name: string, seek: string, r: Option<nat>) {
    && (r.Some? ==> exists t :: Candidate(names, t, name, seek) && |t| == r.value)
    && (forall t | Candidate(names, t, name, seek) :: r.Some? && |t| <= r.value)
  }

  /** From `seek` on, the loop finds the longest entry that covers the name. */
  lemma {:induction false} SeekIsLongest(names: Names, seek: string, name: string)
    requires LabelSuffix(seek, StripWww(name))
    ensures LongestFrom(names, name, seek, Seek(names, seek, name))
    decreases |seek|
  {
    HitIsCover(names, seek, name);
    var dot := Dot(seek);
    if Hit(names, seek, name) {
      assert seek[|seek| - |seek|..] == seek;
      assert Candidate(names, seek, name, seek);
    } else if dot.Some? && dot.value + 1 < |seek| {
      var rest := seek[dot.value + 1..];
      assert LabelSuffix(rest, seek);
      SuffixTransitive(rest, seek, StripWww(name));
      SeekIsLongest(names, rest, name);
      LongestBehindDot(names, name, seek, dot.value, Seek(names, rest, name));
    } else {
      NoneBehindDot(names, name, seek);
    }
  }

  lemma LongestBehindDot(names: Names, name: string, seek: string, d: nat, r: Option<nat>)
    requires FirstDot(seek, d) && d + 1 < |seek| && !(seek in names && Covers(seek, names[seek], name))
    requires LongestFrom(names, name, seek[d + 1..], r)
    ensures LongestFrom(names, name, seek, r)
  {
    forall t: string ensures Candidate(names, t, name, seek) <==> Candidate(names, t, name, seek[d + 1..]) {
      SuffixesBehindDot(t, seek, d);
    }
  }

  lemma SuffixesBehindDot(t: string, seek: string, d: nat)
    requires FirstDot(seek, d) && d + 1 < |seek|
    ensures LabelSuffix(t, seek[d + 1..]) <==> LabelSuffix(t, seek) && t != seek
  {
    if |t| >= |seek| {
      SuffixAsLong(t, seek);
    } else if LabelSuffix(t, seek) {
      SuffixBehindDot(t, seek, d);
    } else if LabelSuffix(t, seek[d + 1..]) {
      SuffixOfSuffix(t, seek, d);
    }
  }

  lemma SuffixAsLong(s: string, t: string)
    requires |s| >= |t|
    ensures LabelSuffix(s, t) ==> s == t
  {
    assert t[0..] == t;
  }

  lemma NoneBehindDot(names: Names, name: string, seek: string)
    requires !(seek in names && Covers(seek, names[seek], name))
    requires '.' in seek ==> FirstDot(seek, |seek| - 1)
    ensures LongestFrom(names, name, seek, None)
  {
    forall t: string ensures !Candidate(names, t, name, seek) {
      NoSuffixButItself(t, seek);
    }
  }

  lemma NoSuffixButItself(s: string, t: string)
    requires '.' in t ==> FirstDot(t, |t| - 1)
    ensures LabelSuffix(s, t) ==> s == t
  {
    if |s| >= |t| {
      SuffixAsLong(s, t);
    } else {
      assert t[|t| - |s| - 1] in t;
    }
  }

  lemma SuffixTransitive(a: string, b: string, c: string)
    requires LabelSuffix(a, b) && LabelSuffix(b, c)
    ensures LabelSuffix(a, c)
  {
    assert c[|c| - |a|..] == b[|b| - |a|..];
    if |a| < |b| {
      assert c[|c| - |a| - 1] == b[|b| - |a| - 1];
    }
  }

  /** The lookup returns the length of the longest entry that covers the name, if any does. */
  lemma LookupIsLongest(names: Names, domain: string)
    ensures var name := LowerAll(domain);
      match MatchedLength(names, domain)
      case None => forall t | t in names :: !Covers(t, names[t], name)
      case Some(n) =>
        && (exists t :: t in names && Covers(t, names[t], name) && |t| == n)
        && (forall t | t in names && Covers(t, names[t], name) :: |t| <= n)
  {
    var name := LowerAll(domain);
    var t := StripWww(name);
    assert t[|t| - |t|..] == t;
    SeekIsLongest(names, t, name);
    forall s | s in names && Covers(s, names[s], name) ensures Candidate(names, s, name, t) {
      assert s == t ==> t[|t| - |s|..] == s;
    }
  }

  // ---- Lists ----

  /** The words of a list, after `buffer`. */
  function Tokenize(s: string, buffer: string): seq<string>
    decreases |s|
  {
    var word := if buffer == [] then [] else [buffer];
    if s == [] then word
    else if IsSpace(s[0]) then word + Tokenize(s[1..], [])
    else Tokenize(s[1..], buffer + [s[0]])
  }

  function Lines(entries: seq<string>): string {
    if entries == [] then [] else entries[0] + "\n" + Lines(entries[1..])
  }

  predicate IsWord(s: string) {
    s != [] && forall i | 0 <= i < |s| :: !IsSpace(s[i])
  }

  lemma {:induction false} TokenizeWord(word: string, rest: string, buffer: string)
    requires forall i | 0 <= i < |word| :: !IsSpace(word[i])
    ensures Tokenize(word + "\n" + rest, buffer) == (if buffer + word == [] then [] else [buffer + word]) + Tokenize(rest, [])
    decreases |word|
  {
    var s := word + "\n" + rest;
    if word == [] {
      assert s[0] == '\n' && s[1..] == rest;
      assert buffer + word == buffer;
    } else {
      assert s[0] == word[0] && s[1..] == word[1..] + "\n" + rest;
      TokenizeWord(word[1..], rest, buffer + [word[0]]);
      assert buffer + [word[0]] + word[1..] == buffer + word;
    }
  }

  /** Entries written one to a line are read back. */
  lemma {:induction false} LinesRoundTrip(entries: seq<string>)
    requires forall i | 0 <= i < |entries| :: IsWord(entries[i])
    ensures Tokenize(Lines(entries), []) == entries
  {
    if entries != [] {
      TokenizeWord(entries[0], Lines(entries[1..]), []);
      LinesRoundTrip(entries[1..]);
      assert [] + entries[0] == entries[0];
      assert [entries[0]] + entries[1..] == entries;
    }
  }

  lemma {:induction false} TokensAreWords(s: string, buffer: string)
    requires forall i | 0 <= i < |buffer| :: !IsSpace(buffer[i])
    ensures forall i | 0 <= i < |Tokenize(s, buffer)| :: IsWord(Tokenize(s, buffer)[i])
    decreases |s|
  {
    if s != [] {
      if IsSpace(s[0]) {
        TokensAreWords(s[1..], []);
      } else {
        TokensAreWords(s[1..], buffer + [s[0]]);
      }
    }
  }

  // ---- Filters ----

  datatype Filter = Filter(
    names: Names,
    specials: set<Special>,
    overrides: Option<Filter>,     // m_default_overrides, entries with `!`
    exclusions: Option<Filter>,    // m_explicit_exclusions, entries with `+`
    defaults: Option<Filter>)      // m_explicit_defaults, entries with `^`

  predicate Prefixed(entry: string) {
    entry != [] && (entry[0] == '!' || entry[0] == '+' || entry[0] == '^')
  }

  /** What the parsers of addresses, ranges and ports are expected to refuse. */
  ghost predicate Sensible(foreign: Foreign) {
    foreign("") == None && forall s: string | Prefixed(s) :: foreign(s) == None
  }

  function AddName(names: Names, text: string, sub: bool): Names {
    var flags := if text in names then names[text] else Flags(false, false);
    names[text := if sub then flags.(sub := true) else flags.(exact := true)]
  }

  function NamesOf(foreign: Foreign, tokens: seq<string>): Names {
    if tokens == [] then map[]
    else
      var names, last := NamesOf(foreign, tokens[..|tokens| - 1]), tokens[|tokens| - 1];
      var parsed := Parse(foreign, last);
      if !Prefixed(last) && parsed.Name? then AddName(names, parsed.text, parsed.sub) else names
  }

  function SpecialsOf(foreign: Foreign, tokens: seq<string>): set<Special> {
    if tokens == [] then {}
    else
      var specials, last := SpecialsOf(foreign, tokens[..|tokens| - 1]), tokens[|tokens| - 1];
      var parsed := Parse(foreign, last);
      if !Prefixed(last) && parsed.Found? then specials + {parsed.special} else specials
  }

  /** The entries under one of the prefixes, without it. */
  function Selected(foreign: Foreign, tokens: seq<string>, prefix: char): seq<string> {
    if tokens == [] then []
    else
      var picked, last := Selected(foreign, tokens[..|tokens| - 1], prefix), tokens[|tokens| - 1];
      if last != [] && last[0] == prefix && Parse(foreign, last[1..]) != Malformed then picked + [last[1..]] else picked
  }

  function Size(tokens: seq<string>): nat {
    if tokens == [] then 0 else Size(tokens[..|tokens| - 1]) + |tokens[|tokens| - 1]|
  }

  lemma {:induction false} SelectedIsSmaller(foreign: Foreign, tokens: seq<string>, prefix: char)
    ensures Size(Selected(foreign, tokens, prefix)) + |Selected(foreign, tokens, prefix)| <= Size(tokens)
  {
    if tokens != [] {
      var front, last := tokens[..|tokens| - 1], tokens[|tokens| - 1];
      SelectedIsSmaller(foreign, front, prefix);
      var picked := Selected(foreign, front, prefix);
      if last != [] && last[0] == prefix && Parse(foreign, last[1..]) != Malformed {
        assert (picked + [last[1..]])[..|picked|] == picked;
      }
    }
  }

  function Nested(foreign: Foreign, tokens: seq<string>, prefix: char): Option<Filter>
    decreases Size(tokens), 0
  {
    var picked := Selected(foreign, tokens, prefix);
    SelectedIsSmaller(foreign, tokens, prefix);
    if picked == [] then None else Some(Build(foreign, picked))
  }

  /** The filter for a list of entries. */
  function Build(foreign: Foreign, tokens: seq<string>): Filter
    decreases Size(tokens), 1
  {
    Filter(NamesOf(foreign, tokens), SpecialsOf(foreign, tokens),
           Nested(foreign, tokens, '!'), Nested(foreign, tokens, '+'), Nested(foreign, tokens, '^'))
  }

  // ---- A filter depends on which entries there are, not on their order or number ----

  ghost predicate Listed(foreign: Foreign, tokens: seq<string>, parsed: Parsed) {
    exists k | 0 <= k < |tokens| :: !Prefixed(tokens[k]) && Parse(foreign, tokens[k]) == parsed
  }

  lemma ListedSplit(foreign: Foreign, tokens: seq<string>, parsed: Parsed)
    requires tokens != []
    ensures var front, last := tokens[..|tokens| - 1], tokens[|tokens| - 1];
      Listed(foreign, tokens, parsed) <==>
        Listed(foreign, front, parsed) || (!Prefixed(last) && Parse(foreign, last) == parsed)
  {
    var front := tokens[..|tokens| - 1];
    if Listed(foreign, tokens, parsed) {
      var k :| 0 <= k < |tokens| && !Prefixed(tokens[k]) && Parse(foreign, tokens[k]) == parsed;
      assert k < |front| ==> front[k] == tokens[k];
    }
    if Listed(foreign, front, parsed) {
      var k :| 0 <= k < |front| && !Prefixed(front[k]) && Parse(foreign, front[k]) == parsed;
      assert tokens[k] == front[k];
    }
  }

  lemma {:induction false} NamesAt(foreign: Foreign, tokens: seq<string>, text: string)
    ensures var names := NamesOf(foreign, tokens);
      && (text in names <==> Listed(foreign, tokens, Name(text, false)) || Listed(foreign, tokens, Name(text, true)))
      && (text in names ==>
            names[text] == Flags(Listed(foreign, tokens, Name(text, false)), Listed(foreign, tokens, Name(text, true))))
  {
    if tokens != [] {
      NamesAt(foreign, tokens[..|tokens| - 1], text);
      ListedSplit(foreign, tokens, Name(text, false));
      ListedSplit(foreign, tokens, Name(text, true));
    }
  }

  lemma {:induction false} SpecialsAt(foreign: Foreign, tokens: seq<string>, special: Special)
    ensures special in SpecialsOf(foreign, tokens) <==> Listed(foreign, tokens, Found(special))
  {
    if tokens != [] {
      SpecialsAt(foreign, tokens[..|tokens| - 1], special);
      ListedSplit(foreign, tokens, Found(special));
    }
  }

  lemma {:induction false} SelectedAt(foreign: Foreign, tokens: seq<string>, prefix: char, entry: string)
    ensures entry in Selected(foreign, tokens, prefix) <==> [prefix] + entry in tokens && Parse(foreign, entry) != Malformed
  {
    if tokens != [] {
      var front, last := tokens[..|tokens| - 1], tokens[|tokens| - 1];
      SelectedAt(foreign, front, prefix, entry);
      assert tokens == front + [last];
      assert last != [] ==> last == [last[0]] + last[1..];
      assert ([prefix] + entry)[1..] == entry;
    }
  }

  lemma SameListed(foreign: Foreign, a: seq<string>, b: seq<string>, parsed: Parsed)
    requires forall t :: t in a <==> t in b
    ensures Listed(foreign, a, parsed) <==> Listed(foreign, b, parsed)
  {
    if Listed(foreign, a, parsed) {
      var k :| 0 <= k < |a| && !Prefixed(a[k]) && Parse(foreign, a[k]) == parsed;
      assert a[k] in b;
    }
    if Listed(foreign, b, parsed) {
      var k :| 0 <= k < |b| && !Prefixed(b[k]) && Parse(foreign, b[k]) == parsed;
      assert b[k] in a;
    }
  }

  lemma SameNames(foreign: Foreign, a: seq<string>, b: seq<string>)
    requires forall t :: t in a <==> t in b
    ensures NamesOf(foreign, a) == NamesOf(foreign, b) && SpecialsOf(foreign, a) == SpecialsOf(foreign, b)
  {
    forall text ensures text in NamesOf(foreign, a) <==> text in NamesOf(foreign, b)
                ensures text in NamesOf(foreign, a) ==> NamesOf(foreign, a)[text] == NamesOf(foreign, b)[text] {
      NamesAt(foreign, a, text);
      NamesAt(foreign, b, text);
      SameListed(foreign, a, b, Name(text, false));
      SameListed(foreign, a, b, Name(text, true));
    }
    forall special ensures special in SpecialsOf(foreign, a) <==> special in SpecialsOf(foreign, b) {
      SpecialsAt(foreign, a, special);
      SpecialsAt(foreign, b, special);
      SameListed(foreign, a, b, Found(special));
    }
  }

  lemma SameSelected(foreign: Foreign, a: seq<string>, b: seq<string>, prefix: char)
    requires forall t :: t in a <==> t in b
    ensures forall t :: t in Selected(foreign, a, prefix) <==> t in Selected(foreign, b, prefix)
  {
    forall t ensures t in Selected(foreign, a, prefix) <==> t in Selected(foreign, b, prefix) {
      SelectedAt(foreign, a, prefix, t);
      SelectedAt(foreign, b, prefix, t);
    }
  }

  lemma {:induction false} SameNested(foreign: Foreign, a: seq<string>, b: seq<string>, prefix: char)
    requires forall t :: t in a <==> t in b
    ensures Nested(foreign, a, prefix) == Nested(foreign, b, prefix)
    decreases Size(a), 0
  {
    var p, q := Selected(foreign, a, prefix), Selected(foreign, b, prefix);
    SameSelected(foreign, a, b, prefix);
    SelectedIsSmaller(foreign, a, prefix);
    assert p == [] <==> q == [] by {
      assert p != [] ==> p[0] in q;
      assert q != [] ==> q[0] in p;
    }
    if p != [] {
      OrderIsIgnored(foreign, p, q);
    }
  }

  /** Two lists with the same entries, in any order and repetition, make the same filter. */
  lemma {:induction false} OrderIsIgnored(foreign: Foreign, a: seq<string>, b: seq<string>)
    requires forall t :: t in a <==> t in b
    ensures Build(foreign, a) == Build(foreign, b)
    decreases Size(a), 1
  {
    SameNames(foreign, a, b);
    SameNested(foreign, a, b, '!');
    SameNested(foreign, a, b, '+');
    SameNested(foreign, a, b, '^');
  }

  // ---- ...nor on the case of their letters ----

  ghost predicate CaseBlind(foreign: Foreign) {
    forall a: string, b: string | LowerAll(a) == LowerAll(b) :: foreign(a) == foreign(b)
  }

  predicate SameText(a: seq<string>, b: seq<string>) {
    |a| == |b| && forall i | 0 <= i < |a| :: LowerAll(a[i]) == LowerAll(b[i])
  }

  lemma SameTail(a: string, b: string)
    requires LowerAll(a) == LowerAll(b) && a != []
    ensures b != [] && LowerAll(a[1..]) == LowerAll(b[1..]) && Lower(a[0]) == Lower(b[0])
  {
    assert LowerAll(a)[0] == Lower(a[0]) && LowerAll(b)[0] == Lower(b[0]);
    forall i | 0 <= i < |a| - 1 ensures LowerAll(a[1..])[i] == LowerAll(b[1..])[i] {
      assert LowerAll(a)[i + 1] == LowerAll(b)[i + 1];
    }
  }

  lemma SamePrefix(a: string, b: string, prefix: char)
    requires LowerAll(a) == LowerAll(b) && a != [] && (prefix == '!' || prefix == '+' || prefix == '^')
    ensures b != [] && (a[0] == prefix <==> b[0] == prefix)
  {
    SameTail(a, b);
  }

  lemma SameEntry(foreign: Foreign, a: string, b: string)
    requires CaseBlind(foreign) && LowerAll(a) == LowerAll(b)
    ensures Parse(foreign, a) == Parse(foreign, b) && (Prefixed(a) <==> Prefixed(b))
  {
    if a != [] {
      SameTail(a, b);
    }
  }

  lemma SameFront(a: seq<string>, b: seq<string>)
    requires SameText(a, b) && a != []
    ensures SameText(a[..|a| - 1], b[..|b| - 1]) && LowerAll(a[|a| - 1]) == LowerAll(b[|b| - 1])
  {
  }

  lemma {:induction false} SameTables(foreign: Foreign, a: seq<string>, b: seq<string>)
    requires CaseBlind(foreign) && SameText(a, b)
    ensures NamesOf(foreign, a) == NamesOf(foreign, b) && SpecialsOf(foreign, a) == SpecialsOf(foreign, b)
  {
    if a != [] {
      SameFront(a, b);
      SameTables(foreign, a[..|a| - 1], b[..|b| - 1]);
      SameEntry(foreign, a[|a| - 1], b[|b| - 1]);
    }
  }

  lemma {:induction false} SamePicked(foreign: Foreign, a: seq<string>, b: seq<string>, prefix: char)
    requires CaseBlind(foreign) && SameText(a, b) && (prefix == '!' || prefix == '+' || prefix == '^')
    ensures SameText(Selected(foreign, a, prefix), Selected(foreign, b, prefix))
  {
    if a != [] {
      SameFront(a, b);
      SamePicked(foreign, a[..|a| - 1], b[..|b| - 1], prefix);
      var x, y := a[|a| - 1], b[|b| - 1];
      if x != [] {
        SameTail(x, y);
        SamePrefix(x, y, prefix);
        SameEntry(foreign, x[1..], y[1..]);
      }
    }
  }

  lemma {:induction false} SameNestedText(foreign: Foreign, a: seq<string>, b: seq<string>, prefix: char)
    requires CaseBlind(foreign) && SameText(a, b) && (prefix == '!' || prefix == '+' || prefix == '^')
    ensures Nested(foreign, a, prefix) == Nested(foreign, b, prefix)
    decreases Size(a), 0
  {
    var p, q := Selected(foreign, a, prefix), Selected(foreign, b, prefix);
    SamePicked(foreign, a, b, prefix);
    SelectedIsSmaller(foreign, a, prefix);
    if p != [] {
      CaseIsIgnored(foreign, p, q);
    }
  }

  /** Two lists that differ in the case of letters only make the same filter, prefixed entries included. */
  lemma {:induction false} CaseIsIgnored(foreign: Foreign, a: seq<string>, b: seq<string>)
    requires CaseBlind(foreign) && SameText(a, b)
    ensures Build(foreign, a) == Build(foreign, b)
    decreases Size(a), 1
  {
    SameTables(foreign, a, b);
    SameNestedText(foreign, a, b, '!');
    SameNestedText(foreign, a, b, '+');
    SameNestedText(foreign, a, b, '^');
  }

  // ---- Matching ----

  datatype Status = Default | Exclusion | SuspectExclusion | DefaultOverride

  /** `match_explicit_domain`: the longer match wins, and a tie goes to the default route. */
  function MatchExplicit(f: Filter, domain: string): Option<Status> {
    var direct := if f.exclusions.Some? then MatchedLength(f.exclusions.value.names, domain) else None;
    var defaults := if f.defaults.Some? then MatchedLength(f.defaults.value.names, domain) else None;
    if direct.None? && defaults.None? then None
    else if defaults.Some? && (direct.None? || defaults.value >= direct.value) then Some(DefaultOverride)
    else Some(Exclusion)
  }

  function MatchDomain(f: Filter, domain: string): Status
    decreases f
  {
    var explicit := MatchExplicit(f, domain);
    if explicit.Some? then explicit.value
    else if f.overrides.Some? && MatchDomain(f.overrides.value, domain) == Exclusion then DefaultOverride
    else if MatchedLength(f.names, domain).Some? then Exclusion
    else Default
  }

  // An address as the filter sees it: with and without its port, and the ranges around it.
  datatype Tag = Tag(address: nat, withoutPort: nat, ranges: set<nat>, port: nat)

  predicate Contains(specials: set<Special>, tag: Tag) {
    || Address(tag.address) in specials || Address(tag.withoutPort) in specials || Port(tag.port) in specials
    || exists r | r in tag.ranges :: Range(r) in specials
  }

  /** `match_tag`; `domain` is the name cached for the tag, and a nested filter caches none. */
  function MatchTag(f: Filter, tag: Tag, domain: Option<string>, suspect: bool): Status
    decreases f
  {
    var explicit := if domain.Some? then MatchExplicit(f, domain.value) else None;
    if explicit.Some? then explicit.value
    else if f.defaults.Some? && MatchTag(f.defaults.value, tag, None, false) == Exclusion then DefaultOverride
    else
      var explicitAddress := f.exclusions.Some? && MatchTag(f.exclusions.value, tag, None, false) == Exclusion;
      if !explicitAddress && f.overrides.Some?
         && ((domain.Some? && MatchDomain(f.overrides.value, domain.value) == Exclusion)
             || MatchTag(f.overrides.value, tag, None, false) == Exclusion) then DefaultOverride
      else if explicitAddress || Contains(f.specials, tag) then
        var hasDomainOverride := (!explicitAddress && f.overrides.Some? && f.overrides.value.names != map[])
                                 || (f.defaults.Some? && f.defaults.value.names != map[]);
        if domain.None? && hasDomainOverride then SuspectExclusion else Exclusion
      else if domain.Some? then MatchDomain(f, domain.value)
      else if suspect then SuspectExclusion
      else Default
  }

  predicate Flat(f: Filter) {
    f.overrides.None? && f.exclusions.None? && f.defaults.None?
  }

  lemma {:induction false} NoPrefixNoNested(foreign: Foreign, tokens: seq<string>, prefix: char)
    requires (prefix == '!' || prefix == '+' || prefix == '^') && forall i | 0 <= i < |tokens| :: !Prefixed(tokens[i])
    ensures Selected(foreign, tokens, prefix) == []
  {
    if tokens != [] {
      NoPrefixNoNested(foreign, tokens[..|tokens| - 1], prefix);
    }
  }

  lemma PrefixedIsMalformed(foreign: Foreign, entry: string)
    requires Sensible(foreign) && Prefixed(entry)
    ensures Parse(foreign, entry) == Malformed
  {
    var text := LowerAll(entry);
    assert text[0] == entry[0];
  }

  /** A nested filter holds no further filters. */
  lemma NestedIsFlat(foreign: Foreign, tokens: seq<string>, prefix: char)
    requires Sensible(foreign) && (prefix == '!' || prefix == '+' || prefix == '^')
    ensures Nested(foreign, tokens, prefix).Some? ==> Flat(Nested(foreign, tokens, prefix).value)
  {
    var picked := Selected(foreign, tokens, prefix);
    forall i | 0 <= i < |picked| ensures !Prefixed(picked[i]) {
      SelectedAt(foreign, tokens, prefix, picked[i]);
      if Prefixed(picked[i]) {
        PrefixedIsMalformed(foreign, picked[i]);
      }
    }
    NoPrefixNoNested(foreign, picked, '!');
    NoPrefixNoNested(foreign, picked, '+');
    NoPrefixNoNested(foreign, picked, '^');
    var f := Build(foreign, picked);
    assert Nested(foreign, picked, '!') == None && Nested(foreign, picked, '+') == None && Nested(foreign, picked, '^') == None;
    assert Flat(f);
    assert picked != [] ==> Nested(foreign, tokens, prefix) == Some(f);
  }

  /** So nested matching only ever says "excluded" or "default", by name and by address. */
  lemma NestedIsTwoValued(foreign: Foreign, tokens: seq<string>, prefix: char, tag: Tag, domain: string)
    requires Sensible(foreign) && (prefix == '!' || prefix == '+' || prefix == '^') && Nested(foreign, tokens, prefix).Some?
    ensures var f := Nested(foreign, tokens, prefix).value;
      && MatchTag(f, tag, None, false) == (if Contains(f.specials, tag) then Exclusion else Default)
      && MatchDomain(f, domain) == (if MatchedLength(f.names, domain).Some? then Exclusion else Default)
  {
    NestedIsFlat(foreign, tokens, prefix);
  }

  /** An exact entry for a name is the longest that can cover it. */
  lemma ExactIsLongest(names: Names, text: string, domain: string)
    requires text in names && names[text].exact && StripWww(LowerAll(domain)) == text
    ensures MatchedLength(names, domain) == Some(|text|)
  {
    LookupIsLongest(names, domain);
    assert Covers(text, names[text], LowerAll(domain));
  }

  lemma MatchIsNoLonger(names: Names, domain: string)
    ensures MatchedLength(names, domain).Some? ==> MatchedLength(names, domain).value <= |StripWww(LowerAll(domain))|
  {
    LookupIsLongest(names, domain);
  }

  /**
   * Whatever else is on the list, a `^` entry for a name puts that name, with or without `www.` and in
   * any letter case, on the default route, and so does any address the name is cached for.
   */
  lemma ExactDefaultWins(foreign: Foreign, tokens: seq<string>, entry: string, domain: string, tag: Tag, suspect: bool)
    requires "^" + entry in tokens && Parse(foreign, entry).Name? && !Parse(foreign, entry).sub
    requires StripWww(LowerAll(domain)) == Parse(foreign, entry).text
    ensures MatchDomain(Build(foreign, tokens), domain) == DefaultOverride
    ensures MatchTag(Build(foreign, tokens), tag, Some(domain), suspect) == DefaultOverride
  {
    var f := Build(foreign, tokens);
    var text := Parse(foreign, entry).text;
    ExactDefaultIsListed(foreign, tokens, entry);
    assert f.defaults == Nested(foreign, tokens, '^');
    ExactIsLongest(f.defaults.value.names, text, domain);
    if f.exclusions.Some? {
      MatchIsNoLonger(f.exclusions.value.names, domain);
    }
    assert MatchExplicit(f, domain) == Some(DefaultOverride);
  }

  lemma ExactDefaultIsListed(foreign: Foreign, tokens: seq<string>, entry: string)
    requires "^" + entry in tokens && Parse(foreign, entry).Name? && !Parse(foreign, entry).sub
    ensures var nested, text := Nested(foreign, tokens, '^'), Parse(foreign, entry).text;
      nested.Some? && text in nested.value.names && nested.value.names[text].exact
  {
    var text := Parse(foreign, entry).text;
    var picked := Selected(foreign, tokens, '^');
    assert ['^'] + entry == "^" + entry;
    SelectedAt(foreign, tokens, '^', entry);
    var k :| 0 <= k < |picked| && picked[k] == entry;
    assert LowerAll(entry) != [] ==> LowerAll(entry)[0] == Lower(entry[0]);
    assert Listed(foreign, picked, Name(text, false));
    NamesAt(foreign, picked, text);
    assert Nested(foreign, tokens, '^') == Some(Build(foreign, picked));
    assert Build(foreign, picked).names == NamesOf(foreign, picked);
  }

  // ---- The verdict on a name, from the list itself ----

  /** The length of the longest unprefixed entry of a list that covers the name. */
  function Best(foreign: Foreign, entries: seq<string>, domain: string): Option<nat> {
    MatchedLength(NamesOf(foreign, entries), domain)
  }

  ghost predicate CoversWith(foreign: Foreign, entry: string, domain: string, n: nat) {
    && !Prefixed(entry) && Parse(foreign, entry).Name? && |Parse(foreign, entry).text| == n
    && Covers(Parse(foreign, entry).text, Flags(!Parse(foreign, entry).sub, Parse(foreign, entry).sub), LowerAll(domain))
  }

  lemma BestIsLongest(foreign: Foreign, entries: seq<string>, domain: string, n: nat)
    ensures Best(foreign, entries, domain) == Some(n) ==>
              exists k | 0 <= k < |entries| :: CoversWith(foreign, entries[k], domain, n)
    ensures (exists k | 0 <= k < |entries| :: CoversWith(foreign, entries[k], domain, n)) ==>
              Best(foreign, entries, domain).Some? && n <= Best(foreign, entries, domain).value
  {
    var names, name := NamesOf(foreign, entries), LowerAll(domain);
    LookupIsLongest(names, domain);
    if Best(foreign, entries, domain) == Some(n) {
      var t :| t in names && Covers(t, names[t], name) && |t| == n;
      NamesAt(foreign, entries, t);
      var sub := !(names[t].exact && t == StripWww(name));
      assert Listed(foreign, entries, Name(t, sub));
      var k :| 0 <= k < |entries| && !Prefixed(entries[k]) && Parse(foreign, entries[k]) == Name(t, sub);
      assert CoversWith(foreign, entries[k], domain, n);
    }
    if exists k | 0 <= k < |entries| :: CoversWith(foreign, entries[k], domain, n) {
      var k :| 0 <= k < |entries| && CoversWith(foreign, entries[k], domain, n);
      var parsed := Parse(foreign, entries[k]);
      assert Listed(foreign, entries, Name(parsed.text, parsed.sub));
      NamesAt(foreign, entries, parsed.text);
      assert Covers(parsed.text, names[parsed.text], name);
    }
  }

  /**
   * User entries first, the longer one winning and `^` winning ties; then the `!` group restores the
   * default route; then plain entries exclude.
   */
  lemma VerdictByList(foreign: Foreign, tokens: seq<string>, domain: string)
    requires Sensible(foreign)
    ensures var plus := Best(foreign, Selected(foreign, tokens, '+'), domain);
      var caret := Best(foreign, Selected(foreign, tokens, '^'), domain);
      MatchDomain(Build(foreign, tokens), domain) ==
        if caret.Some? && (plus.None? || caret.value >= plus.value) then DefaultOverride
        else if plus.Some? then Exclusion
        else if Best(foreign, Selected(foreign, tokens, '!'), domain).Some? then DefaultOverride
        else if Best(foreign, tokens, domain).Some? then Exclusion
        else Default
  {
    var f := Build(foreign, tokens);
    assert f.names == NamesOf(foreign, tokens) && f.overrides == Nested(foreign, tokens, '!')
        && f.exclusions == Nested(foreign, tokens, '+') && f.defaults == Nested(foreign, tokens, '^');
    NestedBest(foreign, tokens, '+', domain);
    NestedBest(foreign, tokens, '^', domain);
    NestedBest(foreign, tokens, '!', domain);
    if f.overrides.Some? {
      NestedIsTwoValued(foreign, tokens, '!', Tag(0, 0, {}, 0), domain);
    }
  }

  /** What a list says about an address: some unprefixed entry is that address, its port or a range around it. */
  predicate HitBy(foreign: Foreign, entries: seq<string>, tag: Tag) {
    Contains(SpecialsOf(foreign, entries), tag)
  }

  predicate HasNames(foreign: Foreign, entries: seq<string>) {
    NamesOf(foreign, entries) != map[]
  }

  /**
   * Without a known name: `^` first, then `+` shields from the `!` group; an address that is excluded
   * is only a suspect as long as a name could still put it back on the default route.
   */
  lemma VerdictByAddress(foreign: Foreign, tokens: seq<string>, tag: Tag, suspect: bool)
    requires Sensible(foreign)
    ensures var caret, plus := Selected(foreign, tokens, '^'), Selected(foreign, tokens, '+');
      var bang := Selected(foreign, tokens, '!');
      MatchTag(Build(foreign, tokens), tag, None, suspect) ==
        if HitBy(foreign, caret, tag) then DefaultOverride
        else if !HitBy(foreign, plus, tag) && HitBy(foreign, bang, tag) then DefaultOverride
        else if HitBy(foreign, plus, tag) || HitBy(foreign, tokens, tag) then
          (if HasNames(foreign, caret) || (!HitBy(foreign, plus, tag) && HasNames(foreign, bang)) then SuspectExclusion
           else Exclusion)
        else if suspect then SuspectExclusion else Default
  {
    var f := Build(foreign, tokens);
    assert f.specials == SpecialsOf(foreign, tokens) && f.overrides == Nested(foreign, tokens, '!')
        && f.exclusions == Nested(foreign, tokens, '+') && f.defaults == Nested(foreign, tokens, '^');
    NestedHits(foreign, tokens, '^', tag);
    NestedHits(foreign, tokens, '+', tag);
    NestedHits(foreign, tokens, '!', tag);
  }

  lemma NestedHits(foreign: Foreign, tokens: seq<string>, prefix: char, tag: Tag)
    requires Sensible(foreign) && (prefix == '!' || prefix == '+' || prefix == '^')
    ensures var nested, picked := Nested(foreign, tokens, prefix), Selected(foreign, tokens, prefix);
      && (nested.Some? && MatchTag(nested.value, tag, None, false) == Exclusion <==> HitBy(foreign, picked, tag))
      && (nested.Some? && nested.value.names != map[] <==> HasNames(foreign, picked))
  {
    var picked := Selected(foreign, tokens, prefix);
    if picked != [] {
      assert Nested(foreign, tokens, prefix) == Some(Build(foreign, picked));
      var f := Build(foreign, picked);
      assert f.names == NamesOf(foreign, picked) && f.specials == SpecialsOf(foreign, picked);
      NestedIsTwoValued(foreign, tokens, prefix, tag, "");
    }
  }

  lemma NestedBest(foreign: Foreign, tokens: seq<string>, prefix: char, domain: string)
    ensures var nested := Nested(foreign, tokens, prefix);
      Best(foreign, Selected(foreign, tokens, prefix), domain) ==
        if nested.Some? then MatchedLength(nested.value.names, domain) else None
  {
    var picked := Selected(foreign, tokens, prefix);
    if picked == [] {
      LookupIsLongest(NamesOf(foreign, picked), domain);
    } else {
      assert Nested(foreign, tokens, prefix) == Some(Build(foreign, picked));
      assert Build(foreign, picked).names == NamesOf(foreign, picked);
    }
  }

  // ---- Reading a list ----

  datatype Tables = Tables(
    names: Names, specials: set<Special>, overrides: seq<string>, exclusions: seq<string>, defaults: seq<string>)

  function TablesOf(foreign: Foreign, tokens: seq<string>): Tables {
    Tables(NamesOf(foreign, tokens), SpecialsOf(foreign, tokens),
           Selected(foreign, tokens, '!'), Selected(foreign, tokens, '+'), Selected(foreign, tokens, '^'))
  }

  /** `add_entry`. */
  method AddEntry(foreign: Foreign, t: Tables, entry: string, ghost tokens: seq<string>) returns (r: Tables)
    requires t == TablesOf(foreign, tokens) && entry != []
    ensures r == TablesOf(foreign, tokens + [entry])
  {
    r := t;
    assert (tokens + [entry])[..|tokens|] == tokens;
    if entry[0] == '!' || entry[0] == '+' || entry[0] == '^' {
      if Parse(foreign, entry[1..]) == Malformed {
        return;
      }
      if entry[0] == '+' {
        r := r.(exclusions := r.exclusions + [entry[1..]]);
      } else if entry[0] == '^' {
        r := r.(defaults := r.defaults + [entry[1..]]);
      } else {
        r := r.(overrides := r.overrides + [entry[1..]]);
      }
      return;
    }
    match Parse(foreign, entry)
    case Found(special) => r := r.(specials := r.specials + {special});
    case Name(text, sub) => r := r.(names := AddName(r.names, text, sub));
    case Malformed =>
  }

  /** The loop of `update_exclusions` over the characters of the list. */
  method ReadList(foreign: Foreign, exclusions: string) returns (t: Tables)
    ensures t == TablesOf(foreign, Tokenize(exclusions, []))
  {
    t := Tables(map[], {}, [], [], []);
    var buffer: string := [];
    ghost var tokens: seq<string> := [];
    var i := 0;
    while i < |exclusions|
      invariant i <= |exclusions| && t == TablesOf(foreign, tokens)
      invariant Tokenize(exclusions, []) == tokens + Tokenize(exclusions[i..], buffer)
    {
      TokenizeAt(exclusions, i, buffer);
      if !IsSpace(exclusions[i]) {
        buffer := buffer + [exclusions[i]];
      } else if buffer != [] {
        t := AddEntry(foreign, t, buffer, tokens);
        Assoc(tokens, [buffer], Tokenize(exclusions[i + 1..], []));
        tokens, buffer := tokens + [buffer], [];
      }
      i := i + 1;
    }
    if buffer != [] {
      t := AddEntry(foreign, t, buffer, tokens);
    } else {
      assert tokens + [] == tokens;
    }
  }

  lemma TokenizeAt(s: string, i: nat, buffer: string)
    requires i < |s|
    ensures Tokenize(s[i..], buffer) ==
            if !IsSpace(s[i]) then Tokenize(s[i + 1..], buffer + [s[i]])
            else (if buffer == [] then [] else [buffer]) + Tokenize(s[i + 1..], [])
    ensures [] + Tokenize(s[i + 1..], []) == Tokenize(s[i + 1..], [])
  {
    assert s[i..][0] == s[i] && s[i..][1..] == s[i + 1..];
  }

  /** `update_exclusions`: prefixed entries are written to lists of their own and read again. */
  method UpdateExclusions(foreign: Foreign, exclusions: string) returns (f: Filter)
    requires Sensible(foreign)
    ensures f == Build(foreign, Tokenize(exclusions, []))
    decreases Size(Tokenize(exclusions, [])), 1
  {
    var t := ReadList(foreign, exclusions);
    ghost var tokens := Tokenize(exclusions, []);
    TokensAreWords(exclusions, []);
    var overrides := UpdateNested(foreign, t.overrides, tokens, '!');
    var direct := UpdateNested(foreign, t.exclusions, tokens, '+');
    var defaults := UpdateNested(foreign, t.defaults, tokens, '^');
    f := Filter(t.names, t.specials, overrides, direct, defaults);
  }

  method UpdateNested(foreign: Foreign, picked: seq<string>, ghost tokens: seq<string>, ghost prefix: char)
    returns (f: Option<Filter>)
    requires Sensible(foreign) && picked == Selected(foreign, tokens, prefix)
    requires forall i | 0 <= i < |tokens| :: IsWord(tokens[i])
    ensures f == Nested(foreign, tokens, prefix)
    decreases Size(tokens), 0
  {
    if picked == [] {
      return None;
    }
    SelectedAreWords(foreign, tokens, prefix);
    LinesRoundTrip(picked);
    SelectedIsSmaller(foreign, tokens, prefix);
    var nested := UpdateExclusions(foreign, Lines(picked));
    return Some(nested);
  }

  lemma {:induction false} SelectedAreWords(foreign: Foreign, tokens: seq<string>, prefix: char)
    requires Sensible(foreign) && forall i | 0 <= i < |tokens| :: IsWord(tokens[i])
    ensures forall i | 0 <= i < |Selected(foreign, tokens, prefix)| :: IsWord(Selected(foreign, tokens, prefix)[i])
  {
    if tokens != [] {
      var last := tokens[|tokens| - 1];
      SelectedAreWords(foreign, tokens[..|tokens| - 1], prefix);
      assert LowerAll("") == "";
      assert IsWord(last) && (Parse(foreign, last[1..]) != Malformed ==> IsWord(last[1..]));
    }
  }
}
