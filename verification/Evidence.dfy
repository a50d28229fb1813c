/** Verbatim evidence: finding a judge's quote in what the agent said, and grading an attack with it. */
module Evidence {
  import opened RunTypes
  import opened Text

  // Whitespace

  /** The characters that `\s` matches and `str.strip` removes. */
  predicate IsSpace(c: char) {
    var p := c as int;
    || 0x09 <= p <= 0x0d || 0x1c <= p <= 0x20 || p == 0x85 || p == 0xa0 || p == 0x1680 || 0x2000 <= p <= 0x200a
    || p == 0x2028 || p == 0x2029 || p == 0x202f || p == 0x205f || p == 0x3000
  }

  const VISIBLE := (c: char) => !IsSpace(c)

  /** Every run of whitespace becomes one blank, and none is left at the ends. */
  function Normalize(s: string): string {
    Strip(Squeeze(s, VISIBLE, ' '), VISIBLE)
  }

  /** The words of a text: its maximal stretches without whitespace. */
  function Words(s: string): seq<string> {
    Stretches(s, VISIBLE)
  }

  /** Normalizing keeps the words, puts one blank between any two, and nothing else. */
  lemma NormalizeIsWords(s: string)
    ensures Normalize(s) == Join(Words(s), " ") && Words(Normalize(s)) == Words(s)
    ensures Normalize(Normalize(s)) == Normalize(s)
    ensures Normalize(s) == "" <==> Words(s) == []
  {
    CleanMeaning(s, VISIBLE, ' ');
    StretchesOfJoin(Words(s), VISIBLE, ' ');
    CleanMeaning(Normalize(s), VISIBLE, ' ');
    if Words(s) != [] { JoinEnds(Words(s), VISIBLE, " "); }
  }

  /** Words separated by single blanks. */
  ghost predicate SingleBlanks(s: string) {
    && (forall i :: 0 <= i < |s| && IsSpace(s[i]) ==> s[i] == ' ')
    && (forall i :: 0 <= i < |s| - 1 && IsSpace(s[i]) ==> !IsSpace(s[i + 1]))
  }

  ghost predicate Normal(s: string) {
    SingleBlanks(s) && (s != "" ==> !IsSpace(s[0]) && !IsSpace(s[|s| - 1]))
  }

  lemma {:induction false} JoinIsNormal(words: seq<string>)
    requires forall w :: w in words ==> IsWord(w, VISIBLE)
    ensures Normal(Join(words, " "))
  {
    if words == [] {
    } else {
      assert words[0] in words && forall w :: w in words[1..] ==> w in words;
      WordIsNormal(words[0]);
      if |words| > 1 {
        JoinIsNormal(words[1..]);
        JoinEnds(words[1..], VISIBLE, " ");
        BothNormal(words[0], Join(words[1..], " "));
      }
    }
  }

  lemma WordIsNormal(w: string)
    requires IsWord(w, VISIBLE)
    ensures Normal(w)
  {
    assert forall i :: 0 <= i < |w| ==> w[i] in w;
  }

  lemma BothNormal(a: string, b: string)
    requires Normal(a) && Normal(b) && a != "" && b != ""
    ensures Normal(a + " " + b)
  {
  }

  lemma NormalizeIsNormal(s: string)
    ensures Normal(Normalize(s))
  {
    NormalizeIsWords(s);
    JoinIsNormal(Words(s));
  }

  lemma {:induction false} SqueezeNormal(s: string)
    requires SingleBlanks(s)
    ensures Squeeze(s, VISIBLE, ' ') == s
  {
    if s == "" {
    } else {
      SqueezeNormal(s[..|s| - 1]);
    }
  }

  /** Normal text is what normalizing leaves alone, so normalizing twice changes nothing more. */
  lemma NormalizeIsIdempotent(s: string)
    ensures Normalize(Normalize(s)) == Normalize(s)
    ensures Normal(s) <==> Normalize(s) == s
  {
    NormalizeIsWords(s);
    NormalizeIsNormal(s);
    if Normal(s) { SqueezeNormal(s); }
  }

  // Transcripts

  datatype Role = Agent | Caller

  datatype Turn = Turn(role: Role, text: string)

  /** The normalized texts of the turns. */
  function Parts(t: seq<Turn>): (parts: seq<string>)
    ensures |parts| == |t| && forall i :: 0 <= i < |t| ==> parts[i] == Normalize(t[i].text)
  {
    seq(|t|, i requires 0 <= i < |t| => Normalize(t[i].text))
  }

  /** The parts `lo` to `hi`, joined with blanks. */
  function JoinOf(parts: seq<string>, lo: nat, hi: nat): string
    requires lo < hi <= |parts|
    decreases hi
  {
    if hi == lo + 1 then parts[lo] else JoinOf(parts, lo, hi - 1) + " " + parts[hi - 1]
  }

  /** Where part `i` starts in the join that begins with part `lo`. */
  function Offset(parts: seq<string>, lo: nat, i: nat): nat
    requires lo <= i <= |parts|
    decreases i
  {
    if i == lo then 0 else Offset(parts, lo, i - 1) + |parts[i - 1]| + 1
  }

  predicate IsAgent(t: seq<Turn>, i: int) {
    0 <= i < |t| && t[i].role == Agent
  }

  ghost predicate AgentRun(t: seq<Turn>, lo: nat, hi: nat) {
    lo < hi <= |t| && (forall i :: lo <= i < hi ==> IsAgent(t, i)) && !IsAgent(t, lo - 1) && !IsAgent(t, hi)
  }

  predicate OccursAt(needle: string, hay: string, p: int) {
    0 <= p && p + |needle| <= |hay| && hay[p..p + |needle|] == needle
  }

  ghost predicate Contains(hay: string, needle: string) {
    exists p :: OccursAt(needle, hay, p)
  }

  /** The leftmost match in the first run of agent turns that has one; `parts` are the turns' texts. */
  ghost predicate FirstMatch(t: seq<Turn>, parts: seq<string>, needle: string, lo: nat, hi: nat, start: nat)
    requires |parts| == |t|
  {
    && AgentRun(t, lo, hi) && OccursAt(needle, JoinOf(parts, lo, hi), start)
    && (forall q :: 0 <= q < start ==> !OccursAt(needle, JoinOf(parts, lo, hi), q))
    && (forall lo': nat, hi': nat :: AgentRun(t, lo', hi') && lo' < lo ==> !Contains(JoinOf(parts, lo', hi'), needle))
  }

  /** Turn `i` holds the character at `at` of the join. */
  predicate Holds(parts: seq<string>, lo: nat, i: nat, at: nat)
    requires lo <= i < |parts|
  {
    Offset(parts, lo, i) <= at < Offset(parts, lo, i) + |parts[i]|
  }

  predicate Overlaps(parts: seq<string>, lo: nat, i: nat, start: nat, end: nat)
    requires lo <= i < |parts|
  {
    Offset(parts, lo, i) < end && Offset(parts, lo, i) + |parts[i]| > start
  }

  predicate Increasing(refs: seq<nat>) {
    forall i, j :: 0 <= i < j < |refs| ==> refs[i] < refs[j]
  }

  /** `refs` are the turns of the run that the match `start..end` overlaps. */
  ghost predicate Touches(parts: seq<string>, lo: nat, hi: nat, start: nat, end: nat, refs: seq<nat>)
    requires hi <= |parts|
  {
    Increasing(refs) && forall i: nat :: i in refs <==> lo <= i < hi && Overlaps(parts, lo, i, start, end)
  }

  /** The words of the turns `lo` to `hi`, one turn after the other. */
  function Said(words: seq<seq<string>>, lo: nat, hi: nat): seq<string>
    requires lo <= hi <= |words|
    decreases hi
  {
    if hi == lo then [] else Said(words, lo, hi - 1) + words[hi - 1]
  }

  /** The agent says something in each of the turns `a` to `b`. */
  ghost predicate Speaks(t: seq<Turn>, words: seq<seq<string>>, a: nat, b: nat)
    requires |words| == |t|
  {
    a < b <= |t| && forall i :: a <= i < b ==> IsAgent(t, i) && words[i] != []
  }

  ghost predicate StandsBetween(t: seq<Turn>, words: seq<seq<string>>, text: string, a: nat, b: nat)
    requires |words| == |t|
  {
    Speaks(t, words, a, b) && Contains(Join(Said(words, a, b), " "), text)
  }

  /** The text stands, word for word, in what the agent says in consecutive turns, none of them blank. */
  ghost predicate StandsIn(t: seq<Turn>, words: seq<seq<string>>, text: string)
    requires |words| == |t|
  {
    exists a, b :: StandsBetween(t, words, text, a, b)
  }

  /** The turns `a` to `b` hold the needle, and no fewer: it begins in the first and ends in the last of them. */
  ghost predicate Quotes(t: seq<Turn>, words: seq<seq<string>>, needle: string, a: nat, b: nat)
    requires |words| == |t|
  {
    && Speaks(t, words, a, b)
    && var said := Join(Said(words, a, b), " ");
    exists p :: && OccursAt(needle, said, p) && p < |Join(words[a], " ")|
                && p + |needle| > |said| - |Join(words[b - 1], " ")|
  }

  /** Each part is its turn's words with single blanks between them. */
  ghost predicate Spells(parts: seq<string>, words: seq<seq<string>>) {
    |parts| == |words| && forall i :: 0 <= i < |parts| ==> parts[i] == Join(words[i], " ") && (parts[i] == "" <==> words[i] == [])
  }

  /** The words of each turn. */
  function WordsOf(t: seq<Turn>): (words: seq<seq<string>>)
    ensures |words| == |t| && forall i :: 0 <= i < |t| ==> words[i] == Words(t[i].text)
  {
    seq(|t|, i requires 0 <= i < |t| => Words(t[i].text))
  }

  lemma PartsSpell(t: seq<Turn>)
    ensures Spells(Parts(t), WordsOf(t))
    ensures forall i :: 0 <= i < |t| ==> Words(Parts(t)[i]) == WordsOf(t)[i]
  {
    forall i | 0 <= i < |t|
      ensures Parts(t)[i] == Join(WordsOf(t)[i], " ") && Words(Parts(t)[i]) == WordsOf(t)[i]
      ensures Parts(t)[i] == "" <==> WordsOf(t)[i] == []
    {
      NormalizeIsWords(t[i].text);
    }
  }

  function Range(a: nat, b: nat): (r: seq<nat>)
    requires a <= b
    ensures |r| == b - a && forall i :: 0 <= i < |r| ==> r[i] == a + i
  {
    seq(b - a, i requires 0 <= i < b - a => a + i)
  }

  // Offsets

  lemma {:induction false} JoinLength(parts: seq<string>, lo: nat, hi: nat)
    requires lo < hi <= |parts|
    ensures |JoinOf(parts, lo, hi)| == Offset(parts, lo, hi) - 1
    decreases hi
  {
    if hi == lo + 1 {
    } else {
      JoinLength(parts, lo, hi - 1);
    }
  }

  lemma {:induction false} OffsetsAdd(parts: seq<string>, lo: nat, a: nat, b: nat)
    requires lo <= a <= b <= |parts|
    ensures Offset(parts, lo, b) == Offset(parts, lo, a) + Offset(parts, a, b)
    ensures a < b ==> Offset(parts, lo, a) + |parts[a]| < Offset(parts, lo, b)
    decreases b
  {
    if a == b {
    } else {
      OffsetsAdd(parts, lo, a, b - 1);
    }
  }

  lemma {:induction false} JoinPrefix(parts: seq<string>, lo: nat, b: nat, hi: nat)
    requires lo < b <= hi <= |parts|
    ensures |JoinOf(parts, lo, b)| <= |JoinOf(parts, lo, hi)| && JoinOf(parts, lo, hi)[..|JoinOf(parts, lo, b)|] == JoinOf(parts, lo, b)
    decreases hi
  {
    if b == hi {
    } else {
      JoinPrefix(parts, lo, b, hi - 1);
    }
  }

  /** From the offset of turn `a` on, a join is the join that begins with `a`. */
  predicate EndsIn(parts: seq<string>, lo: nat, a: nat, b: nat)
    requires lo <= a < b <= |parts|
  {
    Offset(parts, lo, a) <= |JoinOf(parts, lo, b)| && JoinOf(parts, lo, b)[Offset(parts, lo, a)..] == JoinOf(parts, a, b)
  }

  lemma {:induction false} JoinSuffix(parts: seq<string>, lo: nat, a: nat, b: nat)
    requires lo <= a < b <= |parts|
    ensures EndsIn(parts, lo, a, b)
    decreases b
  {
    if b == a + 1 {
      LastPart(parts, lo, a);
    } else {
      JoinSuffix(parts, lo, a, b - 1);
      SuffixGrows(parts, lo, a, b);
    }
  }

  lemma SuffixGrows(parts: seq<string>, lo: nat, a: nat, b: nat)
    requires lo <= a && a + 1 < b <= |parts| && EndsIn(parts, lo, a, b - 1)
    ensures EndsIn(parts, lo, a, b)
  {
    DropThenAdd(JoinOf(parts, lo, b - 1), Offset(parts, lo, a), " ", parts[b - 1]);
  }

  lemma SuffixLength(parts: seq<string>, lo: nat, a: nat, b: nat)
    requires lo <= a < b <= |parts|
    ensures |JoinOf(parts, lo, b)| == Offset(parts, lo, a) + |JoinOf(parts, a, b)|
  {
    JoinLength(parts, lo, b);
    JoinLength(parts, a, b);
    OffsetsAdd(parts, lo, a, b);
  }

  lemma LastPart(parts: seq<string>, lo: nat, a: nat)
    requires lo <= a < |parts|
    ensures EndsIn(parts, lo, a, a + 1)
  {
    if lo < a { JoinLength(parts, lo, a); }
  }

  lemma DropThenAdd(s: string, n: nat, x: string, y: string)
    requires n <= |s|
    ensures (s + x + y)[n..] == s[n..] + x + y
  {
  }

  /** The join of a sub-block is the part of the whole join between its offsets. */
  lemma JoinSlice(parts: seq<string>, lo: nat, a: nat, b: nat, hi: nat)
    requires lo <= a < b <= hi <= |parts|
    ensures Offset(parts, lo, a) + |JoinOf(parts, a, b)| == |JoinOf(parts, lo, b)| <= |JoinOf(parts, lo, hi)|
    ensures JoinOf(parts, lo, hi)[Offset(parts, lo, a)..|JoinOf(parts, lo, b)|] == JoinOf(parts, a, b)
  {
    JoinPrefix(parts, lo, b, hi);
    SuffixLength(parts, lo, a, b);
    JoinSuffix(parts, lo, a, b);
    var whole, part := JoinOf(parts, lo, hi), JoinOf(parts, lo, b);
    assert whole[..|part|][Offset(parts, lo, a)..] == whole[Offset(parts, lo, a)..|part|];
  }

  /** A character of the join that is no joining blank belongs to a turn. */
  lemma {:induction false} CharInPart(parts: seq<string>, lo: nat, hi: nat, at: nat) returns (i: nat)
    requires lo < hi <= |parts| && at < |JoinOf(parts, lo, hi)| && !IsSpace(JoinOf(parts, lo, hi)[at])
    ensures lo <= i < hi && Holds(parts, lo, i, at)
    decreases hi
  {
    if hi == lo + 1 {
      i := lo;
    } else {
      JoinLength(parts, lo, hi - 1);
      if at < |JoinOf(parts, lo, hi - 1)| { i := CharInPart(parts, lo, hi - 1, at); } else { i := hi - 1; }
    }
  }

  // Locating a quote

  /** Among the turns of the run, those the match overlaps are consecutive, and hold all of it. */
  lemma MatchIsQuoted(t: seq<Turn>, parts: seq<string>, words: seq<seq<string>>, needle: string, lo: nat, hi: nat,
                      start: nat, end: nat) returns (a: nat, b: nat)
    requires |parts| == |t| && Spells(parts, words) && needle != "" && Normal(needle) && end == start + |needle|
    requires AgentRun(t, lo, hi) && OccursAt(needle, JoinOf(parts, lo, hi), start)
    ensures lo <= a < b <= hi && Quotes(t, words, needle, a, b)
    ensures forall i :: lo <= i < hi ==> (Overlaps(parts, lo, i, start, end) <==> a <= i < b)
  {
    MatchEnds(JoinOf(parts, lo, hi), needle, start);
    a, b := MatchBlock(parts, lo, hi, start, end);
    InnerMatch(parts, words, needle, lo, hi, start, a, b);
  }

  lemma MatchBlock(parts: seq<string>, lo: nat, hi: nat, start: nat, end: nat) returns (a: nat, b: nat)
    requires lo < hi <= |parts| && start < end <= |JoinOf(parts, lo, hi)|
    requires !IsSpace(JoinOf(parts, lo, hi)[start]) && !IsSpace(JoinOf(parts, lo, hi)[end - 1])
    ensures lo <= a < b <= hi
    ensures Holds(parts, lo, a, start) && Holds(parts, lo, b - 1, end - 1)
    ensures forall i :: lo <= i < hi ==> (Overlaps(parts, lo, i, start, end) <==> a <= i < b)
  {
    a := CharInPart(parts, lo, hi, start);
    var last := CharInPart(parts, lo, hi, end - 1);
    b := last + 1;
    OverlapsBetween(parts, lo, hi, a, last, start, end);
  }

  lemma MatchEnds(hay: string, needle: string, start: nat)
    requires needle != "" && OccursAt(needle, hay, start)
    ensures hay[start] == needle[0] && hay[start + |needle| - 1] == needle[|needle| - 1]
  {
    assert needle == hay[start..start + |needle|];
  }

  lemma OverlapsBetween(parts: seq<string>, lo: nat, hi: nat, a: nat, last: nat, start: nat, end: nat)
    requires lo <= a < hi <= |parts| && lo <= last < hi && start < end
    requires Holds(parts, lo, a, start) && Holds(parts, lo, last, end - 1)
    ensures a <= last
    ensures forall i :: lo <= i < hi ==> (Overlaps(parts, lo, i, start, end) <==> a <= i <= last)
  {
    if last < a { OffsetsAdd(parts, lo, last, a); }
    forall i | lo <= i < hi ensures Overlaps(parts, lo, i, start, end) <==> a <= i <= last {
      if i < a { OffsetsAdd(parts, lo, i, a); } else { OffsetsAdd(parts, lo, a, i); }
      if i < last { OffsetsAdd(parts, lo, i, last); } else { OffsetsAdd(parts, lo, last, i); }
    }
  }

  lemma InnerMatch(parts: seq<string>, words: seq<seq<string>>, needle: string, lo: nat, hi: nat, start: nat, a: nat, b: nat)
    requires Spells(parts, words) && lo <= a < b <= hi <= |parts| && OccursAt(needle, JoinOf(parts, lo, hi), start)
    requires needle != "" && SingleBlanks(needle) && Holds(parts, lo, a, start) && Holds(parts, lo, b - 1, start + |needle| - 1)
    ensures forall i :: a <= i < b ==> words[i] != []
    ensures var said := Join(Said(words, a, b), " ");
            exists p :: && OccursAt(needle, said, p) && p < |Join(words[a], " ")|
                        && p + |needle| > |said| - |Join(words[b - 1], " ")|
  {
    var p := MatchInBlock(parts, needle, lo, hi, start, a, b);
    NoBlankInside(parts, needle, a, b, p);
    JoinIsSaid(parts, words, a, b);
    assert OccursAt(needle, Join(Said(words, a, b), " "), p);
  }

  lemma MatchInBlock(parts: seq<string>, needle: string, lo: nat, hi: nat, start: nat, a: nat, b: nat) returns (p: nat)
    requires lo <= a < b <= hi <= |parts| && needle != "" && OccursAt(needle, JoinOf(parts, lo, hi), start)
    requires Holds(parts, lo, a, start) && Holds(parts, lo, b - 1, start + |needle| - 1)
    ensures OccursAt(needle, JoinOf(parts, a, b), p) && p < |parts[a]|
    ensures Offset(parts, a, b - 1) < p + |needle| && p + |needle| > |JoinOf(parts, a, b)| - |parts[b - 1]|
    ensures parts[b - 1] != ""
  {
    JoinSlice(parts, lo, a, b, hi);
    JoinLength(parts, a, b);
    OffsetsAdd(parts, lo, a, b - 1);
    p := start - Offset(parts, lo, a);
    OccursInSlice(needle, JoinOf(parts, lo, hi), start, Offset(parts, lo, a), |JoinOf(parts, lo, b)|);
  }

  /** A match in text with single blanks cannot run across a blank turn, which leaves two in a row. */
  lemma NoBlankInside(parts: seq<string>, needle: string, a: nat, b: nat, p: nat)
    requires a < b <= |parts| && SingleBlanks(needle) && OccursAt(needle, JoinOf(parts, a, b), p)
    requires p < |parts[a]| && Offset(parts, a, b - 1) < p + |needle| && parts[b - 1] != ""
    ensures forall i :: a <= i < b ==> parts[i] != ""
  {
    forall i | a < i < b - 1 ensures parts[i] != "" {
      if parts[i] == "" { TwoBlanks(parts, needle, a, b, p, i); }
    }
  }

  lemma TwoBlanks(parts: seq<string>, needle: string, a: nat, b: nat, p: nat, i: nat)
    requires a < i < b - 1 < |parts| && OccursAt(needle, JoinOf(parts, a, b), p) && parts[i] == ""
    requires p < |parts[a]| && Offset(parts, a, b - 1) < p + |needle|
    ensures exists k :: 0 <= k < |needle| - 1 && needle[k] == needle[k + 1] == ' '
  {
    BlankBefore(parts, a, b, i);
    BlankBefore(parts, a, b, i + 1);
    OffsetsAdd(parts, a, a + 1, i);
    OffsetsAdd(parts, a, i + 1, b - 1);
    var k := Offset(parts, a, i) - 1 - p;
    var whole := JoinOf(parts, a, b);
    assert needle == whole[p..p + |needle|];
    assert needle[k] == whole[p + k] && needle[k + 1] == whole[p + k + 1];
  }

  /** A blank joins turn `i` to the one before. */
  lemma BlankBefore(parts: seq<string>, lo: nat, hi: nat, i: nat)
    requires lo < i < hi <= |parts|
    ensures 0 <= Offset(parts, lo, i) - 1 < |JoinOf(parts, lo, hi)| && JoinOf(parts, lo, hi)[Offset(parts, lo, i) - 1] == ' '
  {
    JoinPrefix(parts, lo, i + 1, hi);
    JoinLength(parts, lo, i);
    var whole, part := JoinOf(parts, lo, hi), JoinOf(parts, lo, i + 1);
    assert part[|JoinOf(parts, lo, i)|] == ' ';
    assert whole[|JoinOf(parts, lo, i)|] == whole[..|part|][|JoinOf(parts, lo, i)|];
  }

  /** Where no turn is blank, the join is the words with single blanks between them. */
  lemma {:induction false} JoinIsSaid(parts: seq<string>, words: seq<seq<string>>, lo: nat, hi: nat)
    requires Spells(parts, words) && lo < hi <= |parts| && forall i :: lo <= i < hi ==> parts[i] != ""
    ensures JoinOf(parts, lo, hi) == Join(Said(words, lo, hi), " ") && Said(words, lo, hi) != []
    decreases hi
  {
    if hi == lo + 1 {
      assert Said(words, lo, lo) == [] && [] + words[lo] == words[lo];
    } else {
      JoinIsSaid(parts, words, lo, hi - 1);
      JoinSplits(Said(words, lo, hi - 1), words[hi - 1], " ");
    }
  }

  /** With or without blank turns, joining keeps the words. */
  lemma {:induction false} JoinKeepsWords(parts: seq<string>, words: seq<seq<string>>, lo: nat, hi: nat)
    requires |parts| == |words| && lo < hi <= |parts| && forall i :: 0 <= i < |parts| ==> Words(parts[i]) == words[i]
    ensures Words(JoinOf(parts, lo, hi)) == Said(words, lo, hi)
    decreases hi
  {
    if hi == lo + 1 {
      assert Said(words, lo, lo) == [] && [] + words[lo] == words[lo];
    } else {
      JoinKeepsWords(parts, words, lo, hi - 1);
      WordsOfBoth(JoinOf(parts, lo, hi - 1), parts[hi - 1]);
    }
  }

  lemma WordsOfBoth(a: string, b: string)
    ensures Words(a + " " + b) == Words(a) + Words(b)
  {
    StretchesSplit(a, ' ', b, VISIBLE);
  }

  lemma OccursInSlice(needle: string, hay: string, start: nat, lo: nat, hi: nat)
    requires OccursAt(needle, hay, start) && lo <= start && start + |needle| <= hi <= |hay|
    ensures OccursAt(needle, hay[lo..hi], start - lo)
  {
    var p := start - lo;
    var inner, outer := hay[lo..hi][p..p + |needle|], hay[start..start + |needle|];
    assert forall k :: 0 <= k < |needle| ==> inner[k] == hay[start + k] == outer[k];
    assert inner == outer;
  }

  /** `str.find`: the leftmost match. */
  method Find(hay: string, needle: string) returns (start: Option<nat>)
    ensures start.None? <==> !Contains(hay, needle)
    ensures start.Some? ==> OccursAt(needle, hay, start.value) && forall q :: 0 <= q < start.value ==> !OccursAt(needle, hay, q)
  {
    if |needle| > |hay| {
      return None;
    }
    for i := 0 to |hay| - |needle| + 1
      invariant forall q :: 0 <= q < i ==> !OccursAt(needle, hay, q)
    {
      if hay[i..i + |needle|] == needle {
        assert OccursAt(needle, hay, i);
        return Some(i);
      }
    }
    return None;
  }

  ghost predicate IsRun(t: seq<Turn>, run: seq<nat>) {
    run != [] && AgentRun(t, run[0], run[0] + |run|) && run == Range(run[0], run[0] + |run|)
  }

  ghost predicate HeldBy(parts: seq<string>, run: seq<nat>, needle: string) {
    run != [] && run[0] + |run| <= |parts| && Contains(JoinOf(parts, run[0], run[0] + |run|), needle)
  }

  ghost predicate RunsUpTo(t: seq<Turn>, runs: seq<seq<nat>>, end: nat) {
    && (forall k :: 0 <= k < |runs| ==> IsRun(t, runs[k]) && runs[k][0] + |runs[k]| <= end)
    && (forall j, k :: 0 <= j < k < |runs| ==> runs[j][0] < runs[k][0])
    && forall lo: nat, hi: nat {:trigger Listed(runs, lo, hi)} :: AgentRun(t, lo, hi) && hi <= end ==> Listed(runs, lo, hi)
  }

  ghost predicate Listed(runs: seq<seq<nat>>, lo: nat, hi: nat) {
    lo <= hi && Range(lo, hi) in runs
  }

  /** The maximal runs of consecutive agent turns, in order. */
  method AgentRuns(t: seq<Turn>) returns (runs: seq<seq<nat>>)
    ensures RunsUpTo(t, runs, |t|)
  {
    var run: seq<nat> := [];
    runs := [];
    for i := 0 to |t|
      invariant |run| <= i && run == Range(i - |run|, i)
      invariant (forall j :: i - |run| <= j < i ==> IsAgent(t, j)) && !IsAgent(t, i - |run| - 1)
      invariant RunsUpTo(t, runs, i - |run|)
    {
      if t[i].role == Agent {
        run := run + [i];
      } else if run != [] {
        OneMoreRun(t, runs, i - |run|, i);
        runs := runs + [run];
        run := [];
      }
      if t[i].role != Agent { NoRunEndsAfter(t, runs, i); }
    }
    if run != [] {
      OneMoreRun(t, runs, |t| - |run|, |t|);
      runs := runs + [run];
    }
  }

  lemma OneMoreRun(t: seq<Turn>, runs: seq<seq<nat>>, lo: nat, hi: nat)
    requires AgentRun(t, lo, hi) && RunsUpTo(t, runs, lo)
    ensures RunsUpTo(t, runs + [Range(lo, hi)], hi)
  {
    var all := runs + [Range(lo, hi)];
    forall a: nat, b: nat | AgentRun(t, a, b) && b <= hi ensures Listed(all, a, b) {
      if b <= lo { assert Listed(runs, a, b); } else { assert a == lo && b == hi && all[|runs|] == Range(a, b); }
    }
  }

  lemma NoRunEndsAfter(t: seq<Turn>, runs: seq<seq<nat>>, i: nat)
    requires RunsUpTo(t, runs, i) && !IsAgent(t, i)
    ensures RunsUpTo(t, runs, i + 1)
  {
    forall lo: nat, hi: nat | AgentRun(t, lo, hi) && hi <= i + 1 ensures Listed(runs, lo, hi) {
      assert hi == i + 1 ==> IsAgent(t, i);
    }
  }

  ghost predicate Located(t: seq<Turn>, parts: seq<string>, needle: string, refs: seq<nat>)
    requires |parts| == |t|
  {
    exists lo: nat, hi: nat, start: nat ::
      FirstMatch(t, parts, needle, lo, hi, start) && Touches(parts, lo, hi, start, start + |needle|, refs)
  }

  ghost predicate FoundNowhere(t: seq<Turn>, parts: seq<string>, needle: string)
    requires |parts| == |t|
  {
    forall lo: nat, hi: nat :: AgentRun(t, lo, hi) ==> !Contains(JoinOf(parts, lo, hi), needle)
  }

  /** Turns `a` to `b` lie in one maximal run of agent turns. */
  lemma RunAround(t: seq<Turn>, a: nat, b: nat) returns (lo: nat, hi: nat)
    requires a < b <= |t| && forall i :: a <= i < b ==> IsAgent(t, i)
    ensures lo <= a && b <= hi && AgentRun(t, lo, hi)
  {
    lo, hi := a, b;
    while IsAgent(t, lo - 1)
      invariant 0 <= lo <= a && forall i :: lo <= i < b ==> IsAgent(t, i)
      decreases lo
    {
      lo := lo - 1;
    }
    while IsAgent(t, hi)
      invariant b <= hi <= |t| && forall i :: lo <= i < hi ==> IsAgent(t, i)
      decreases |t| - hi
    {
      hi := hi + 1;
    }
  }

  /** Searching the joined runs finds a text exactly when it stands in the words of turns none of which is blank. */
  lemma FoundInWords(t: seq<Turn>, parts: seq<string>, words: seq<seq<string>>, needle: string)
    requires |parts| == |t| && Spells(parts, words) && needle != "" && Normal(needle)
    ensures FoundNowhere(t, parts, needle) <==> !StandsIn(t, words, needle)
  {
    if !FoundNowhere(t, parts, needle) {
      var lo: nat, hi: nat :| AgentRun(t, lo, hi) && Contains(JoinOf(parts, lo, hi), needle);
      var start: nat :| OccursAt(needle, JoinOf(parts, lo, hi), start);
      var a, b := MatchIsQuoted(t, parts, words, needle, lo, hi, start, start + |needle|);
      assert StandsBetween(t, words, needle, a, b);
    }
    if StandsIn(t, words, needle) {
      var a, b :| StandsBetween(t, words, needle, a, b);
      StandsInRun(t, parts, words, needle, a, b);
    }
  }

  lemma StandsInRun(t: seq<Turn>, parts: seq<string>, words: seq<seq<string>>, needle: string, a: nat, b: nat)
    requires |parts| == |t| && Spells(parts, words) && StandsBetween(t, words, needle, a, b)
    ensures !FoundNowhere(t, parts, needle)
  {
    JoinIsSaid(parts, words, a, b);
    var lo, hi := RunAround(t, a, b);
    JoinSlice(parts, lo, a, b, hi);
    var p: nat :| OccursAt(needle, JoinOf(parts, a, b), p);
    SliceOccurs(needle, JoinOf(parts, lo, hi), p, Offset(parts, lo, a), |JoinOf(parts, lo, b)|);
  }

  lemma SliceOccurs(needle: string, hay: string, p: nat, lo: nat, hi: nat)
    requires lo <= hi <= |hay| && OccursAt(needle, hay[lo..hi], p)
    ensures OccursAt(needle, hay, lo + p)
  {
    var inner, outer := hay[lo..hi][p..p + |needle|], hay[lo + p..lo + p + |needle|];
    assert forall k :: 0 <= k < |needle| ==> inner[k] == hay[lo + p + k] == outer[k];
    assert inner == outer;
  }

  /** A blank turn hides a quote that runs across it, although the words are all there. */
  lemma BlankTurnHidesQuote()
    ensures var t := [Turn(Agent, "a"), Turn(Agent, " "), Turn(Agent, "b")];
            Said(WordsOf(t), 0, 3) == Words("a b") && !StandsIn(t, WordsOf(t), Join(Words("a b"), " "))
  {
    var t := [Turn(Agent, "a"), Turn(Agent, " "), Turn(Agent, "b")];
    StretchOfWord("a", VISIBLE);
    StretchOfWord("b", VISIBLE);
    StretchesSplit("a", ' ', "b", VISIBLE);
    assert "a" + [' '] + "b" == "a b";
    StretchesSplit("", ' ', "", VISIBLE);
    assert "" + [' '] + "" == " ";
    var words := WordsOf(t);
    assert words[0] == ["a"] && words[1] == [] && words[2] == ["b"];
    OnlyAround(t, words);
  }

  lemma OnlyAround(t: seq<Turn>, words: seq<seq<string>>)
    requires |t| == |words| == 3 && words == [["a"], [], ["b"]]
    ensures Said(words, 0, 3) == ["a", "b"] && !StandsIn(t, words, Join(["a", "b"], " "))
  {
    assert Said(words, 0, 0) == [] && Said(words, 0, 1) == ["a"] && Said(words, 0, 2) == ["a"];
    assert Said(words, 2, 2) == [] && Said(words, 2, 3) == ["b"];
    assert ["a", "b"][1..] == ["b"];
    var text := Join(["a", "b"], " ");
    assert |text| == 3;
    forall a, b ensures !StandsBetween(t, words, text, a, b) {
      if Speaks(t, words, a, b) {
        assert words[1] == [];
        assert a > 1 || b <= 1;
        assert |Join(Said(words, a, b), " ")| == 1;
      }
    }
  }

  method LocateEvidence(evidence: string, t: seq<Turn>) returns (refs: Option<seq<nat>>)
    ensures refs.None? <==> Words(evidence) == [] || !StandsIn(t, WordsOf(t), Join(Words(evidence), " "))
    ensures refs.Some? ==> Located(t, Parts(t), Normalize(evidence), refs.value)
  {
    var needle := Normalize(evidence);
    NormalizeIsWords(evidence);
    NormalizeIsNormal(evidence);
    if needle == "" {
      return None;
    }
    PartsSpell(t);
    FoundInWords(t, Parts(t), WordsOf(t), needle);
    refs := Search(t, Parts(t), needle);
  }

  /** The first run of agent turns whose joined parts hold the needle. */
  method Search(t: seq<Turn>, parts: seq<string>, needle: string) returns (refs: Option<seq<nat>>)
    requires |parts| == |t| && needle != ""
    ensures refs.None? <==> FoundNowhere(t, parts, needle)
    ensures refs.Some? ==> Located(t, parts, needle, refs.value)
  {
    var runs := AgentRuns(t);
    for k := 0 to |runs|
      invariant forall j :: 0 <= j < k ==> !HeldBy(parts, runs[j], needle)
    {
      var indices := runs[k];
      assert IsRun(t, indices);
      var first := indices[0];
      var start := Find(JoinOf(parts, first, first + |indices|), needle);
      if start.None? {
        continue;
      }
      forall lo: nat, hi: nat | AgentRun(t, lo, hi) && lo < first ensures !Contains(JoinOf(parts, lo, hi), needle) {
        EarlierRun(t, parts, runs, k, needle, lo, hi);
      }
      var touched := TouchedTurns(parts, indices, start.value, start.value + |needle|);
      assert FirstMatch(t, parts, needle, first, first + |indices|, start.value);
      return Some(touched);
    }
    forall lo: nat, hi: nat | AgentRun(t, lo, hi) ensures !Contains(JoinOf(parts, lo, hi), needle) {
      EarlierRun(t, parts, runs, |runs|, needle, lo, hi);
    }
    return None;
  }

  lemma EarlierRun(t: seq<Turn>, parts: seq<string>, runs: seq<seq<nat>>, k: nat, needle: string, lo: nat, hi: nat)
    requires |parts| == |t| && RunsUpTo(t, runs, |t|) && k <= |runs| && forall j :: 0 <= j < k ==> !HeldBy(parts, runs[j], needle)
    requires AgentRun(t, lo, hi) && (k < |runs| ==> lo < runs[k][0])
    ensures !Contains(JoinOf(parts, lo, hi), needle)
  {
    var j := RunIndex(t, runs, lo, hi);
    assert runs[j][0] + |runs[j]| == hi;
  }

  lemma RunIndex(t: seq<Turn>, runs: seq<seq<nat>>, lo: nat, hi: nat) returns (j: nat)
    requires RunsUpTo(t, runs, |t|) && AgentRun(t, lo, hi)
    ensures j < |runs| && runs[j] != [] && runs[j][0] == lo && |runs[j]| == hi - lo
  {
    assert Listed(runs, lo, hi);
    j :| 0 <= j < |runs| && runs[j] == Range(lo, hi);
  }

  /** The turns of a run that the match overlaps, found by moving a cursor along the join. */
  method TouchedTurns(parts: seq<string>, indices: seq<nat>, start: nat, end: nat) returns (touched: seq<nat>)
    requires indices != [] && indices[0] + |indices| <= |parts| && indices == Range(indices[0], indices[0] + |indices|)
    ensures Touches(parts, indices[0], indices[0] + |indices|, start, end, touched)
  {
    var first := indices[0];
    var cursor := 0;
    touched := [];
    for j := 0 to |indices|
      invariant cursor == Offset(parts, first, first + j)
      invariant Touches(parts, first, first + j, start, end, touched)
    {
      assert indices[j] == first + j;
      TouchNext(parts, first, indices[j], start, end, touched);
      var part := parts[indices[j]];
      var lo, hi := cursor, cursor + |part|;
      assert lo == Offset(parts, first, indices[j]);
      if lo < end && hi > start {
        touched := touched + [indices[j]];
      }
      cursor := hi + 1;
    }
  }

  lemma TouchNext(parts: seq<string>, lo: nat, hi: nat, start: nat, end: nat, touched: seq<nat>)
    requires lo <= hi < |parts| && Touches(parts, lo, hi, start, end, touched)
    ensures Touches(parts, lo, hi + 1, start, end, if Overlaps(parts, lo, hi, start, end) then touched + [hi] else touched)
    ensures Offset(parts, lo, hi + 1) == Offset(parts, lo, hi) + |parts[hi]| + 1
  {
    LargestLast(touched, hi);
  }

  lemma LargestLast(refs: seq<nat>, x: nat)
    requires Increasing(refs) && forall r :: r in refs ==> r < x
    ensures Increasing(refs + [x])
  {
    assert forall k :: 0 <= k < |refs| ==> refs[k] in refs;
  }

  lemma SomeMember(refs: seq<nat>)
    ensures refs == [] || exists r :: r in refs
  {
    if refs != [] { assert refs[0] in refs; }
  }

  lemma {:induction false} IncreasingIsRange(refs: seq<nat>, a: nat, b: nat)
    requires a <= b && Increasing(refs) && forall i: nat :: i in refs <==> a <= i < b
    ensures refs == Range(a, b)
  {
    if a == b {
      SomeMember(refs);
    } else {
      var last := |refs| - 1;
      assert b - 1 in refs;
      assert refs[last] in refs;
      var init := refs[..last];
      forall i: nat ensures i in init <==> a <= i < b - 1 {
        if i in refs && i != refs[last] { assert i in init; }
        assert i in init ==> i in refs && i < refs[last];
      }
      IncreasingIsRange(init, a, b - 1);
      assert refs == init + [refs[last]];
    }
  }

  lemma TouchedIsRange(parts: seq<string>, lo: nat, hi: nat, start: nat, end: nat, refs: seq<nat>, a: nat, b: nat)
    requires lo <= a < b <= hi <= |parts| && Touches(parts, lo, hi, start, end, refs)
    requires forall i :: lo <= i < hi ==> (Overlaps(parts, lo, i, start, end) <==> a <= i < b)
    ensures refs == Range(a, b)
  {
    IncreasingIsRange(refs, a, b);
  }

  lemma MatchIsRange(t: seq<Turn>, parts: seq<string>, words: seq<seq<string>>, needle: string, lo: nat, hi: nat, start: nat,
                     refs: seq<nat>) returns (a: nat, b: nat)
    requires |parts| == |t| && Spells(parts, words) && needle != "" && Normal(needle)
    requires FirstMatch(t, parts, needle, lo, hi, start) && Touches(parts, lo, hi, start, start + |needle|, refs)
    ensures a < b && refs == Range(a, b) && Quotes(t, words, needle, a, b)
  {
    a, b := MatchIsQuoted(t, parts, words, needle, lo, hi, start, start + |needle|);
    TouchedIsRange(parts, lo, hi, start, start + |needle|, refs, a, b);
  }

  /** What is located is a block of consecutive agent turns that holds the quote, from its first turn to its last. */
  lemma LocatedIsQuoted(t: seq<Turn>, evidence: string, refs: seq<nat>) returns (a: nat, b: nat)
    requires Words(evidence) != [] && Located(t, Parts(t), Normalize(evidence), refs)
    ensures a < b && refs == Range(a, b) && Quotes(t, WordsOf(t), Join(Words(evidence), " "), a, b)
  {
    NormalizeIsWords(evidence);
    NormalizeIsNormal(evidence);
    PartsSpell(t);
    a, b := LocatedBetween(t, Parts(t), WordsOf(t), Normalize(evidence), refs);
  }

  lemma LocatedBetween(t: seq<Turn>, parts: seq<string>, words: seq<seq<string>>, needle: string, refs: seq<nat>)
    returns (a: nat, b: nat)
    requires |parts| == |t| && Spells(parts, words) && needle != "" && Normal(needle) && Located(t, parts, needle, refs)
    ensures a < b && refs == Range(a, b) && Quotes(t, words, needle, a, b)
  {
    var lo: nat, hi: nat, start: nat :|
      FirstMatch(t, parts, needle, lo, hi, start) && Touches(parts, lo, hi, start, start + |needle|, refs);
    a, b := MatchIsRange(t, parts, words, needle, lo, hi, start, refs);
  }

  /** The last run of agent turns. */
  ghost predicate LastRun(t: seq<Turn>, a: nat, b: nat) {
    AgentRun(t, a, b) && forall i :: b <= i < |t| ==> !IsAgent(t, i)
  }

  method LastAgentReply(t: seq<Turn>) returns (reply: Option<(string, seq<nat>)>)
    ensures reply.None? <==> forall i :: 0 <= i < |t| ==> !IsAgent(t, i)
    ensures reply.Some? ==> SaidLast(t, WordsOf(t), reply.value.0, reply.value.1) && Joins(Parts(t), reply.value.0, reply.value.1)
  {
    PartsSpell(t);
    reply := JoinLast(t, Parts(t), WordsOf(t));
  }

  method JoinLast(t: seq<Turn>, parts: seq<string>, ghost words: seq<seq<string>>) returns (reply: Option<(string, seq<nat>)>)
    requires |parts| == |words| == |t| && forall i :: 0 <= i < |t| ==> Words(parts[i]) == words[i]
    ensures reply.None? <==> forall i :: 0 <= i < |t| ==> !IsAgent(t, i)
    ensures reply.Some? ==> SaidLast(t, words, reply.value.0, reply.value.1) && Joins(parts, reply.value.0, reply.value.1)
  {
    var indices := LastIndices(t);
    if indices == [] {
      return None;
    }
    JoinKeepsWords(parts, words, indices[0], indices[0] + |indices|);
    return Some((JoinOf(parts, indices[0], indices[0] + |indices|), indices));
  }

  ghost predicate Joins(parts: seq<string>, text: string, refs: seq<nat>) {
    refs != [] && refs[0] + |refs| <= |parts| && text == JoinOf(parts, refs[0], refs[0] + |refs|)
  }

  /** `refs` are the turns of the agent's last uninterrupted stretch, and `text` has all its words and no others. */
  ghost predicate SaidLast(t: seq<Turn>, words: seq<seq<string>>, text: string, refs: seq<nat>)
    requires |words| == |t|
  {
    && refs != [] && LastRun(t, refs[0], refs[0] + |refs|) && refs == Range(refs[0], refs[0] + |refs|)
    && Words(text) == Said(words, refs[0], refs[0] + |refs|)
  }

  /** The indices of the agent's final consecutive turns, collected from the end. */
  method LastIndices(t: seq<Turn>) returns (indices: seq<nat>)
    ensures indices == [] <==> forall i :: 0 <= i < |t| ==> !IsAgent(t, i)
    ensures indices != [] ==> indices == Range(indices[0], indices[0] + |indices|) && LastRun(t, indices[0], indices[0] + |indices|)
  {
    indices := [];
    var i := |t|;
    while i > 0 && (indices == [] || t[i - 1].role == Agent)
      invariant 0 <= i <= |t| && i + |indices| <= |t|
      invariant indices == Range(i, i + |indices|)
      invariant forall j :: i <= j < i + |indices| ==> IsAgent(t, j)
      invariant if indices == [] then forall j :: i <= j < |t| ==> !IsAgent(t, j)
                else forall j :: i + |indices| <= j < |t| ==> !IsAgent(t, j)
    {
      i := i - 1;
      if t[i].role == Agent {
        indices := [i] + indices;
      }
    }
    assert indices != [] ==> IsAgent(t, indices[0]);
  }
}
