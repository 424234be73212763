/**
 * The word-count oracle of the end-to-end test: the whitespace-separated
 * tokens of the body's paragraphs, not counting the lone punctuation tokens
 * ".", "-" and "_".
 */
module WordCount {
  import opened Wrappers
  import opened Strings
  import opened Checks
  import opened Config
  import opened Document
  import opened Engine
  import opened EngineProperties

  /** A token the count includes. */
  predicate Counted(w: string) {
    w != "." && w != "-" && w != "_"
  }

  /** The counted tokens among `ws`. */
  function CountWords(ws: seq<string>): (n: nat)
    ensures n <= |ws|
    decreases |ws|
  {
    if ws == [] then 0
    else CountWords(ws[..|ws| - 1]) + (if Counted(ws[|ws| - 1]) then 1 else 0)
  }

  /** One paragraph's contribution: nothing for empty text, else its counted tokens. */
  function ParaWords(p: Paragraph): nat {
    if Text(p) == "" then 0 else CountWords(Split(Text(p)))
  }

  /** `doc.paragraphs`: the paragraphs that are direct children of the body, in order. */
  function Paragraphs(body: seq<BodyElem>): seq<Paragraph>
    decreases |body|
  {
    if body == [] then []
    else (if body[0].Para? then [body[0].p] else []) + Paragraphs(body[1..])
  }

  function Total(ps: seq<Paragraph>): nat
    decreases |ps|
  {
    if ps == [] then 0 else Total(ps[..|ps| - 1]) + ParaWords(ps[|ps| - 1])
  }

  /** `word_count(doc)`. */
  function WordCount(body: seq<BodyElem>): nat {
    Total(Paragraphs(body))
  }

  /** The inner loop of `word_count`: one increment per counted token of `words`. */
  method CountTokens(words: seq<string>) returns (n: nat)
    ensures n == CountWords(words)
  {
    n := 0;
    for j := 0 to |words|
      invariant n == CountWords(words[..j])
    {
      assert words[..j + 1][..j] == words[..j];
      if Counted(words[j]) {
        n := n + 1;
      }
    }
    assert words[..|words|] == words;
  }

  /** `word_count`: the count, accumulated paragraph by paragraph. */
  method WordCountOf(doc: Body) returns (count: nat)
    ensures count == WordCount(doc.children)
  {
    var paras := Paragraphs(doc.children);
    count := 0;
    for i := 0 to |paras|
      invariant count == Total(paras[..i])
    {
      assert paras[..i + 1][..i] == paras[..i];
      var txt := Text(paras[i]);
      if txt == "" {
        continue;
      }
      var n := CountTokens(Split(txt));
      count := count + n;
    }
    assert paras[..|paras|] == paras;
  }

  /** A paragraph whose tokens are all ".", "-" or "_" counts nothing. */
  lemma {:induction false} NoneCounted(ws: seq<string>)
    requires forall i :: 0 <= i < |ws| ==> !Counted(ws[i])
    ensures CountWords(ws) == 0
    decreases |ws|
  {
    if ws != [] {
      NoneCounted(ws[..|ws| - 1]);
    }
  }

  /** Every token other than ".", "-" and "_" is counted. */
  lemma {:induction false} AllCounted(ws: seq<string>)
    requires forall i :: 0 <= i < |ws| ==> Counted(ws[i])
    ensures CountWords(ws) == |ws|
    decreases |ws|
  {
    if ws != [] {
      AllCounted(ws[..|ws| - 1]);
    }
  }

  /** A single token counts one exactly when it is not ".", "-" or "_". */
  lemma CountWordsOne(w: string)
    ensures CountWords([w]) == if Counted(w) then 1 else 0
  {
    assert [w][..0] == [];
  }

  /**
   * The count adds up over concatenated token lists; with `CountWordsOne`
   * this fixes the count of every list, however its tokens are mixed.
   */
  lemma {:induction false} CountWordsAppend(a: seq<string>, b: seq<string>)
    ensures CountWords(a + b) == CountWords(a) + CountWords(b)
    decreases |b|
  {
    if b == [] {
      assert a + b == a;
    } else {
      assert (a + b)[..|a + b| - 1] == a + b[..|b| - 1];
      assert (a + b)[|a + b| - 1] == b[|b| - 1];
      CountWordsAppend(a, b[..|b| - 1]);
    }
  }

  /** The oracle on the mixed list `["a", "."]`: only the word counts. */
  lemma CountWordsMixed()
    ensures CountWords(["a", "."]) == 1
  {
    CountWordsAppend(["a"], ["."]);
    CountWordsOne("a");
    CountWordsOne(".");
  }

  lemma {:induction false} TotalAppend(a: seq<Paragraph>, b: seq<Paragraph>)
    ensures Total(a + b) == Total(a) + Total(b)
    decreases |b|
  {
    if b == [] {
      assert a + b == a;
    } else {
      assert (a + b)[..|a + b| - 1] == a + b[..|b| - 1];
      TotalAppend(a, b[..|b| - 1]);
    }
  }

  lemma {:induction false} ParagraphsAppend(a: seq<BodyElem>, b: seq<BodyElem>)
    ensures Paragraphs(a + b) == Paragraphs(a) + Paragraphs(b)
    decreases |a|
  {
    if a == [] {
      assert a + b == b;
    } else {
      assert (a + b)[0] == a[0] && (a + b)[1..] == a[1..] + b;
      ParagraphsAppend(a[1..], b);
    }
  }

  /** The count is additive over concatenation of bodies. */
  lemma WordCountAppend(a: seq<BodyElem>, b: seq<BodyElem>)
    ensures WordCount(a + b) == WordCount(a) + WordCount(b)
  {
    ParagraphsAppend(a, b);
    TotalAppend(Paragraphs(a), Paragraphs(b));
  }

  /** The count of a block followed by more blocks. */
  lemma WordCountCons(e: BodyElem, rest: seq<BodyElem>)
    ensures WordCount([e] + rest) == (if e.Para? then ParaWords(e.p) else 0) + WordCount(rest)
  {
    WordCountAppend([e], rest);
    assert [e][1..] == [];
    if e.Para? {
      assert Paragraphs([e]) == [e.p];
      assert [e.p][..0] == [];
      assert Total([e.p]) == ParaWords(e.p);
    } else {
      assert Paragraphs([e]) == [];
    }
  }

  /** A paragraph with empty text adds nothing to the count. */
  lemma EmptyParagraphCountsZero(p: Paragraph, rest: seq<BodyElem>)
    requires Text(p) == ""
    ensures WordCount([Para(p)] + rest) == WordCount(rest)
  {
    WordCountCons(Para(p), rest);
  }

  /** The number of whitespace-separated tokens of the non-empty paragraphs. */
  function Tokens(ps: seq<Paragraph>): nat
    decreases |ps|
  {
    if ps == [] then 0
    else Tokens(ps[..|ps| - 1]) + (if Text(ps[|ps| - 1]) == "" then 0 else |Split(Text(ps[|ps| - 1]))|)
  }

  /** The count never exceeds the number of tokens. */
  lemma {:induction false} TotalBound(ps: seq<Paragraph>)
    ensures Total(ps) <= Tokens(ps)
    decreases |ps|
  {
    if ps != [] {
      TotalBound(ps[..|ps| - 1]);
    }
  }

  /** Deleting paragraphs and content controls and stripping paragraphs never adds a word. */
  lemma {:induction false} DerivedCountsNoMore(inp: seq<BodyElem>, out: seq<BodyElem>, strip: bool, dropSdts: bool)
    requires Derived(inp, out, strip, dropSdts)
    ensures WordCount(out) <= WordCount(inp)
    decreases |inp|
  {
    if inp != [] {
      var e := inp[0];
      assert inp == [e] + inp[1..];
      WordCountCons(e, inp[1..]);
      if e.Para? && Text(e.p) != "" && Derived(inp[1..], out, strip, dropSdts) {
        DerivedCountsNoMore(inp[1..], out, strip, dropSdts);
      } else if e.BodySdt? && dropSdts {
        DerivedCountsNoMore(inp[1..], out, strip, dropSdts);
      } else {
        DerivedCountsNoMore(inp[1..], out[1..], strip, dropSdts);
        assert out == [out[0]] + out[1..];
        WordCountCons(out[0], out[1..]);
        if e.Para? {
          StripKeepsText(e.p);
        }
      }
    } else {
      assert out == [];
    }
  }

  /** `process_doc` never adds a word. */
  lemma ProcessCountsNoMore(o: Options, body: seq<BodyElem>)
    requires Process(RulesOf(o), body).err.None?
    ensures WordCount(Process(RulesOf(o), body).body) <= WordCount(body)
  {
    ProcessDerived(o, body);
    DerivedCountsNoMore(body, Process(RulesOf(o), body).body, o.bibliography, o.bibliography);
  }

  /** Body content controls are not paragraphs: `rm_other` never changes the count. */
  lemma {:induction false} WithoutBodySdtsCount(s: seq<BodyElem>)
    ensures WordCount(WithoutBodySdts(s)) == WordCount(s)
    decreases |s|
  {
    if s != [] {
      WithoutBodySdtsCount(s[1..]);
      assert s == [s[0]] + s[1..];
      WordCountCons(s[0], s[1..]);
      if !s[0].BodySdt? {
        WordCountCons(s[0], WithoutBodySdts(s[1..]));
      }
    }
  }

  /** Once every non-empty paragraph is gone, nothing is counted. */
  lemma {:induction false} NonTextCountsZero(s: seq<BodyElem>)
    ensures WordCount(NonText(s)) == 0
    decreases |s|
  {
    if s != [] {
      NonTextCountsZero(s[1..]);
      var e := s[0];
      if !(e.Para? && Text(e.p) != "") {
        assert NonText(s) == [e] + NonText(s[1..]);
        WordCountCons(e, NonText(s[1..]));
        assert e.Para? ==> ParaWords(e.p) == 0;
      } else {
        assert NonText(s) == [] + NonText(s[1..]);
        assert [] + NonText(s[1..]) == NonText(s[1..]);
      }
    }
  }

  /** A paragraph an enabled style check matches, whose level (for a heading) can be read. */
  predicate Cleared(o: Options, e: BodyElem) {
    e.Para? && Text(e.p) != "" ==>
      ShouldClearBodyElem(o, e.p.style) && (IsHeading(e.p.style) ==> HeadingLvl(e.p.style).Success?)
  }

  /** Such a paragraph is removed, inside a section or not. */
  lemma ClearedRemoved(o: Options, st: Option<Section>, p: Paragraph)
    requires Text(p) != "" && Cleared(o, Para(p))
    ensures StepPara(RulesOf(o), st, p).Success? && StepPara(RulesOf(o), st, p).value.0 == Remove
  {
    RulesOfAnswers(o, p, LevelOf(st));
  }

  /** When every non-empty paragraph is matched by an enabled check, the pass removes them all. */
  lemma {:induction false} AllClearedWalk(o: Options, st: Option<Section>, elems: seq<BodyElem>)
    requires forall k :: 0 <= k < |elems| ==> Cleared(o, elems[k])
    ensures Walk(RulesOf(o), st, elems).err.None? && Walk(RulesOf(o), st, elems).out == NonText(elems)
    decreases |elems|
  {
    if elems != [] {
      var e := elems[0];
      assert Cleared(o, e);
      if e.Para? && Text(e.p) != "" {
        ClearedRemoved(o, st, e.p);
      }
      var st' := StepElem(RulesOf(o), st, e).value.1;
      assert forall k :: 0 <= k < |elems[1..]| ==> elems[1..][k] == elems[k + 1];
      AllClearedWalk(o, st', elems[1..]);
    }
  }

  /**
   * The end-to-end expectation for the style toggles: a document whose
   * every non-empty paragraph an enabled check matches has no word left.
   */
  lemma AllClearedCountsZero(o: Options, body: seq<BodyElem>)
    requires forall k :: 0 <= k < |body| ==> Cleared(o, body[k])
    ensures Process(RulesOf(o), body).err.None? && WordCount(Process(RulesOf(o), body).body) == 0
  {
    AllClearedWalk(o, None, body);
    NonTextCountsZero(body);
    WithoutBodySdtsCount(NonText(body));
  }

  /**
   * The end-to-end expectation for the bibliography: a document whose words
   * all sit in content controls (every paragraph's run text is empty) has no
   * word left, and with bibliography on no body content control is left.
   */
  lemma BibliographyCountsZero(o: Options, body: seq<BodyElem>)
    requires forall k :: 0 <= k < |body| ==> body[k].Para? ==> Text(body[k].p) == ""
    ensures Process(RulesOf(o), body).err.None? && WordCount(Process(RulesOf(o), body).body) == 0
    ensures o.bibliography ==> NoBodySdts(Process(RulesOf(o), body).body)
  {
    AllClearedCountsZero(o, body);
    if o.bibliography {
      WithoutBodySdtsSpec(Walk(RulesOf(o), None, body).out);
    }
  }

  /**
   * The end-to-end expectation for ignored sections: a document that opens
   * with an ignored heading, and never closes that section, has no word left.
   */
  lemma IgnoredSectionCountsZero(o: Options, h: Paragraph, rest: seq<BodyElem>)
    requires Text(h) != "" && IsIgnoreSect(o, h) && HeadingLvl(h.style).Success?
    requires forall k :: 0 <= k < |rest| ==>
      KeepsOpen(o, Section(Lower(Text(h)), HeadingLvl(h.style).value), rest[k])
    ensures Process(RulesOf(o), [Para(h)] + rest).err.None?
    ensures WordCount(Process(RulesOf(o), [Para(h)] + rest).body) == 0
  {
    IgnoredSectionWalk(o, h, rest);
    NonTextCountsZero(rest);
    SilentWalkCountsZero(RulesOf(o), [Para(h)] + rest);
  }

  /** A pass that ends without error and leaves no word leaves none after the sdt sweep either. */
  lemma SilentWalkCountsZero(r: Rules, body: seq<BodyElem>)
    requires Walk(r, None, body).err.None? && WordCount(Walk(r, None, body).out) == 0
    ensures Process(r, body).err.None? && WordCount(Process(r, body).body) == 0
  {
    WithoutBodySdtsCount(Walk(r, None, body).out);
  }
}
