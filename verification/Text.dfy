/** Cleaning text up: every run of unwanted characters becomes one separator, and the ends are stripped. */
module Text {

  function Join(words: seq<string>, separator: string): string {
    if words == [] then ""
    else if |words| == 1 then words[0]
    else words[0] + separator + Join(words[1..], separator)
  }

  /** Every run of other characters becomes one `separator`. */
  function Squeeze(s: string, keep: char -> bool, separator: char): string {
    if s == "" then ""
    else
      var init, last := s[..|s| - 1], s[|s| - 1];
      if keep(last) then Squeeze(init, keep, separator) + [last]
      else if init != "" && !keep(init[|init| - 1]) then Squeeze(init, keep, separator)
      else Squeeze(init, keep, separator) + [separator]
  }

  function TrimStart(s: string, keep: char -> bool): string {
    if s != "" && !keep(s[0]) then TrimStart(s[1..], keep) else s
  }

  function TrimEnd(s: string, keep: char -> bool): string {
    if s != "" && !keep(s[|s| - 1]) then TrimEnd(s[..|s| - 1], keep) else s
  }

  function Strip(s: string, keep: char -> bool): string {
    TrimEnd(TrimStart(s, keep), keep)
  }

  // What they mean

  ghost predicate IsWord(w: string, keep: char -> bool) {
    w != "" && forall c :: c in w ==> keep(c)
  }

  /** One more character, which goes on with the last word or begins a new one. */
  function Grown(words: seq<string>, goesOn: bool, c: char): seq<string>
    requires goesOn ==> words != []
  {
    if goesOn then words[..|words| - 1] + [words[|words| - 1] + [c]] else words + [[c]]
  }

  /** The maximal stretches of kept characters, in order. */
  function Stretches(s: string, keep: char -> bool): (words: seq<string>)
    ensures forall w :: w in words ==> IsWord(w, keep)
    ensures s != "" && keep(s[|s| - 1]) ==> words != []
  {
    if s == "" then []
    else
      var init, last := s[..|s| - 1], s[|s| - 1];
      var words := Stretches(init, keep);
      if !keep(last) then words
      else
        assert words != [] ==> words[|words| - 1] in words && forall c :: c in words[|words| - 1] + [last] ==> keep(c);
        assert words != [] ==> forall w :: w in words[..|words| - 1] ==> w in words;
        Grown(words, init != "" && keep(init[|init| - 1]), last)
  }

  /** `s` is `text` without what stands around its first and last kept character. */
  ghost predicate Trimmed(text: string, s: string, keep: char -> bool) {
    && (s != "" ==> keep(s[0]) && keep(s[|s| - 1]))
    && exists before: string, after: string ::
         text == before + s + after && (forall c :: c in before + after ==> !keep(c))
  }

  // Joining

  lemma {:induction false} JoinSplits(a: seq<string>, b: seq<string>, separator: string)
    requires a != [] && b != []
    ensures Join(a + b, separator) == Join(a, separator) + separator + Join(b, separator)
  {
    if |a| == 1 {
      assert (a + b)[1..] == b;
    } else {
      assert (a + b)[1..] == a[1..] + b;
      JoinSplits(a[1..], b, separator);
    }
  }

  lemma JoinOne(words: seq<string>, w: string, separator: string)
    ensures Join(words + [w], separator) == if words == [] then w else Join(words, separator) + separator + w
  {
    if words == [] {
      assert words + [w] == [w];
    } else {
      JoinSplits(words, [w], separator);
    }
  }

  lemma {:induction false} JoinEnds(words: seq<string>, keep: char -> bool, separator: string)
    requires words != [] && forall w :: w in words ==> IsWord(w, keep)
    ensures var s := Join(words, separator); s != "" && keep(s[0]) && keep(s[|s| - 1])
  {
    assert words[0] in words && words[0][0] in words[0];
    if |words| == 1 {
      assert words[0][|words[0]| - 1] in words[0];
    } else {
      assert forall w :: w in words[1..] ==> w in words;
      JoinEnds(words[1..], keep, separator);
    }
  }

  /** The last word grows with the text. */
  lemma JoinGrows(words: seq<string>, c: char, separator: string)
    requires words != []
    ensures Join(Grown(words, true, c), separator) == Join(words, separator) + [c]
  {
    var init, last := words[..|words| - 1], words[|words| - 1];
    assert words == init + [last];
    JoinOne(init, last, separator);
    JoinOne(init, last + [c], separator);
  }

  // Squeezing keeps the stretches

  /** The separator that stands for what comes before the first, or after the last, stretch. */
  function Edge(edge: char, keep: char -> bool, separator: char): string {
    if keep(edge) then "" else [separator]
  }

  /** `out` is the squeezed form of a text `s` with the stretches `words`. */
  ghost predicate SqueezedTo(s: string, words: seq<string>, out: string, keep: char -> bool, separator: char) {
    if words == [] then out == (if s == "" then "" else [separator]) && forall c :: c in s ==> !keep(c)
    else s != "" && out == Edge(s[0], keep, separator) + Join(words, [separator]) + Edge(s[|s| - 1], keep, separator)
  }

  lemma {:induction false} NoStretches(s: string, keep: char -> bool)
    ensures Stretches(s, keep) == [] <==> forall c :: c in s ==> !keep(c)
  {
    if s == "" {
    } else {
      NoStretches(s[..|s| - 1], keep);
      assert s == s[..|s| - 1] + [s[|s| - 1]];
    }
  }

  lemma {:induction false} SqueezeMeaning(s: string, keep: char -> bool, separator: char)
    ensures SqueezedTo(s, Stretches(s, keep), Squeeze(s, keep, separator), keep, separator)
  {
    if s == "" {
    } else {
      var init, last := s[..|s| - 1], s[|s| - 1];
      SqueezeMeaning(init, keep, separator);
      SqueezeStep(init, last, keep, separator);
      assert s == init + [last];
    }
  }

  lemma OneMore(init: string, last: char, keep: char -> bool, separator: char)
    ensures Stretches(init + [last], keep) ==
            if keep(last) then Grown(Stretches(init, keep), init != "" && keep(init[|init| - 1]), last) else Stretches(init, keep)
    ensures Squeeze(init + [last], keep, separator) ==
            if keep(last) then Squeeze(init, keep, separator) + [last]
            else if init != "" && !keep(init[|init| - 1]) then Squeeze(init, keep, separator)
            else Squeeze(init, keep, separator) + [separator]
  {
    assert (init + [last])[..|init|] == init;
  }

  lemma SqueezeStep(init: string, last: char, keep: char -> bool, separator: char)
    requires SqueezedTo(init, Stretches(init, keep), Squeeze(init, keep, separator), keep, separator)
    ensures SqueezedTo(init + [last], Stretches(init + [last], keep), Squeeze(init + [last], keep, separator), keep, separator)
  {
    OneMore(init, last, keep, separator);
    var words, out := Stretches(init, keep), Squeeze(init, keep, separator);
    if !keep(last) {
      SqueezeOther(init, last, words, out, keep, separator);
    } else if init != "" && keep(init[|init| - 1]) {
      SqueezeOn(init, last, words, out, keep, separator);
    } else {
      SqueezeNew(init, last, words, out, keep, separator);
    }
  }

  lemma SqueezeOther(init: string, last: char, words: seq<string>, out: string, keep: char -> bool, separator: char)
    requires SqueezedTo(init, words, out, keep, separator) && !keep(last)
    ensures SqueezedTo(init + [last], words, if init != "" && !keep(init[|init| - 1]) then out else out + [separator], keep, separator)
  {
    if init != "" { assert init[|init| - 1] in init && (init + [last])[0] == init[0]; }
  }

  lemma SqueezeOn(init: string, last: char, words: seq<string>, out: string, keep: char -> bool, separator: char)
    requires SqueezedTo(init, words, out, keep, separator) && keep(last) && init != "" && keep(init[|init| - 1]) && words != []
    ensures SqueezedTo(init + [last], Grown(words, true, last), out + [last], keep, separator)
  {
    JoinGrows(words, last, [separator]);
  }

  lemma SqueezeNew(init: string, last: char, words: seq<string>, out: string, keep: char -> bool, separator: char)
    requires SqueezedTo(init, words, out, keep, separator) && keep(last) && (init == "" || !keep(init[|init| - 1]))
    ensures SqueezedTo(init + [last], Grown(words, false, last), out + [last], keep, separator)
  {
    JoinOne(words, [last], [separator]);
    if init != "" { assert init[0] in init && (init + [last])[0] == init[0]; }
  }

  lemma {:induction false} SqueezedChars(s: string, keep: char -> bool, separator: char)
    ensures forall c :: c in Squeeze(s, keep, separator) ==> keep(c) || c == separator
  {
    if s == "" {
    } else {
      SqueezedChars(s[..|s| - 1], keep, separator);
    }
  }

  lemma TrimEdges(lead: string, mid: string, trail: string, keep: char -> bool)
    requires forall c :: c in lead + trail ==> !keep(c)
    requires mid != "" ==> keep(mid[0]) && keep(mid[|mid| - 1])
    ensures Strip(lead + mid + trail, keep) == mid
  {
    TrimLead(lead, mid + trail, keep);
    assert lead + mid + trail == lead + (mid + trail);
    if mid == "" {
      TrimLead(trail, "", keep);
      assert mid + trail == trail + "";
      assert trail + "" == trail;
    } else {
      TrimTrail(mid, trail, keep);
    }
  }

  lemma {:induction false} TrimLead(lead: string, rest: string, keep: char -> bool)
    requires forall c :: c in lead ==> !keep(c)
    ensures TrimStart(lead + rest, keep) == TrimStart(rest, keep)
  {
    if lead == "" {
      assert lead + rest == rest;
    } else {
      assert lead[0] in lead && (lead + rest)[1..] == lead[1..] + rest;
      TrimLead(lead[1..], rest, keep);
    }
  }

  lemma {:induction false} TrimTrail(mid: string, trail: string, keep: char -> bool)
    requires mid != "" && keep(mid[|mid| - 1]) && forall c :: c in trail ==> !keep(c)
    ensures TrimEnd(mid + trail, keep) == mid
  {
    if trail == "" {
      assert mid + trail == mid;
    } else {
      assert trail[|trail| - 1] in trail && (mid + trail)[..|mid + trail| - 1] == mid + trail[..|trail| - 1];
      TrimTrail(mid, trail[..|trail| - 1], keep);
    }
  }

  /** Squeezing and stripping leaves the stretches, with one separator between any two. */
  lemma CleanMeaning(s: string, keep: char -> bool, separator: char)
    requires !keep(separator)
    ensures Strip(Squeeze(s, keep, separator), keep) == Join(Stretches(s, keep), [separator])
  {
    SqueezeMeaning(s, keep, separator);
    var words := Stretches(s, keep);
    if words == [] {
      TrimEdges(Squeeze(s, keep, separator), "", "", keep);
      assert Squeeze(s, keep, separator) + "" + "" == Squeeze(s, keep, separator);
    } else {
      JoinEnds(words, keep, [separator]);
      TrimEdges(Edge(s[0], keep, separator), Join(words, [separator]), Edge(s[|s| - 1], keep, separator), keep);
    }
  }

  // Stretches of joined text

  lemma {:induction false} StretchesSplit(a: string, c: char, b: string, keep: char -> bool)
    requires !keep(c)
    ensures Stretches(a + [c] + b, keep) == Stretches(a, keep) + Stretches(b, keep)
  {
    var s := a + [c] + b;
    if b == "" {
      assert s[..|s| - 1] == a && s[|s| - 1] == c;
    } else {
      var init, last := b[..|b| - 1], b[|b| - 1];
      StretchesSplit(a, c, init, keep);
      assert b == init + [last] && s == a + [c] + init + [last];
      OneMore(a + [c] + init, last, keep, c);
      OneMore(init, last, keep, c);
      if keep(last) { GrownBehind(Stretches(a, keep), Stretches(init, keep), init != "" && keep(init[|init| - 1]), last); }
    }
  }

  lemma GrownBehind(before: seq<string>, words: seq<string>, goesOn: bool, c: char)
    requires goesOn ==> words != []
    ensures Grown(before + words, goesOn, c) == before + Grown(words, goesOn, c)
  {
  }

  lemma {:induction false} StretchOfWord(w: string, keep: char -> bool)
    requires IsWord(w, keep)
    ensures Stretches(w, keep) == [w]
  {
    var last := w[|w| - 1];
    assert last in w;
    if |w| == 1 {
      StretchOfLetter(last, keep);
      assert w == [last];
    } else {
      var init := w[..|w| - 1];
      assert init[|init| - 1] == w[|w| - 2] && w[|w| - 2] in w;
      assert forall c :: c in init ==> c in w;
      StretchOfWord(init, keep);
      assert w == init + [last];
    }
  }

  lemma StretchOfLetter(c: char, keep: char -> bool)
    requires keep(c)
    ensures Stretches([c], keep) == [[c]]
  {
    assert [c][..0] == "";
  }

  lemma {:induction false} StretchesOfJoin(words: seq<string>, keep: char -> bool, separator: char)
    requires !keep(separator) && forall w :: w in words ==> IsWord(w, keep)
    ensures Stretches(Join(words, [separator]), keep) == words
  {
    if words == [] {
    } else if |words| == 1 {
      assert words[0] in words;
      StretchOfWord(words[0], keep);
    } else {
      assert words[0] in words && forall w :: w in words[1..] ==> w in words;
      StretchOfWord(words[0], keep);
      StretchesOfJoin(words[1..], keep, separator);
      StretchesSplit(words[0], separator, Join(words[1..], [separator]), keep);
      assert Join(words, [separator]) == words[0] + [separator] + Join(words[1..], [separator]);
    }
  }

  // Stripping

  lemma StripTrims(text: string, keep: char -> bool)
    ensures Trimmed(text, Strip(text, keep), keep)
  {
    var before := StartTrimmed(text, keep);
    var after := EndTrimmed(TrimStart(text, keep), keep);
    var s := Strip(text, keep);
    assert text == before + s + after;
    if s != "" { assert s[0] == TrimStart(text, keep)[0]; }
  }

  lemma {:induction false} StartTrimmed(text: string, keep: char -> bool) returns (before: string)
    ensures text == before + TrimStart(text, keep) && forall c :: c in before ==> !keep(c)
    ensures TrimStart(text, keep) != "" ==> keep(TrimStart(text, keep)[0])
  {
    if text == "" || keep(text[0]) {
      before := "";
    } else {
      before := StartTrimmed(text[1..], keep);
      before := [text[0]] + before;
    }
  }

  lemma {:induction false} EndTrimmed(text: string, keep: char -> bool) returns (after: string)
    ensures text == TrimEnd(text, keep) + after && forall c :: c in after ==> !keep(c)
    ensures TrimEnd(text, keep) != "" ==> keep(TrimEnd(text, keep)[|TrimEnd(text, keep)| - 1])
  {
    if text == "" || keep(text[|text| - 1]) {
      after := "";
    } else {
      after := EndTrimmed(text[..|text| - 1], keep);
      after := after + [text[|text| - 1]];
    }
  }

  /** Stripping other characters comes to the same where the text has no others. */
  lemma {:induction false} StripSame(s: string, keep: char -> bool, same: char -> bool)
    requires forall c :: c in s ==> keep(c) == same(c)
    ensures Strip(s, keep) == Strip(s, same)
  {
    StartSame(s, keep, same);
    var before := StartTrimmed(s, keep);
    EndSame(TrimStart(s, keep), keep, same);
  }

  lemma {:induction false} StartSame(s: string, keep: char -> bool, same: char -> bool)
    requires forall c :: c in s ==> keep(c) == same(c)
    ensures TrimStart(s, keep) == TrimStart(s, same)
  {
    if s == "" {
    } else {
      assert s[0] in s;
      StartSame(s[1..], keep, same);
    }
  }

  lemma {:induction false} EndSame(s: string, keep: char -> bool, same: char -> bool)
    requires forall c :: c in s ==> keep(c) == same(c)
    ensures TrimEnd(s, keep) == TrimEnd(s, same)
  {
    if s == "" {
    } else {
      assert s[|s| - 1] in s;
      EndSame(s[..|s| - 1], keep, same);
    }
  }
}
