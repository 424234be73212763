/**
 * What the pass of `process_doc` does, stated about the specification
 * `Process(RulesOf(o), body)`: how heading levels are read, how ignored
 * sections open and close, which paragraphs are removed, what the output
 * body is made of, and what happens on an error.
 */
module EngineProperties {
  import opened Wrappers
  import opened Strings
  import opened Checks
  import opened Config
  import opened Document
  import opened Engine

  /** `lstrip("Heading ")` followed by `int(...)` reads the number after "Heading ". */
  lemma HeadingLevelOfNumber(n: nat)
    ensures HeadingLvl("Heading " + ShowNat(n)) == Success(n)
  {
    var digits := ShowNat(n);
    assert digits[0] !in HeadingChars;
    LStripPrefix("Heading ", digits, HeadingChars);
    ParseShowNat(n);
  }

  /** A heading style without a number has no level: `int("")` raises. */
  lemma HeadingWithoutNumber()
    ensures HeadingLvl("Heading").Failure?
  {
    LStripPrefix("Heading", "", HeadingChars);
    assert "Heading" + "" == "Heading";
  }

  /**
   * The character-set reading of `lstrip`: the letters of "Heading " are
   * dropped wherever they occur at the front, so "Heading a1" has level 1.
   */
  lemma HeadingLevelCharSet()
    ensures HeadingLvl("Heading a1") == Success(1)
  {
    LStripPrefix("Heading a", "1", HeadingChars);
    assert "Heading a" + "1" == "Heading a1";
    assert ShowNat(1) == "1";
    ParseShowNat(1);
  }

  /** The helpers of the source answer as the functions they wrap. */
  lemma RulesOfAnswers(o: Options, p: Paragraph, lvl: Option<int>)
    ensures RulesOf(o).isIgnoreEnd(p, lvl) == IsIgnoreEnd(p, lvl)
    ensures RulesOf(o).isIgnoreSect(p) == IsIgnoreSect(o, p)
    ensures RulesOf(o).headingLvl(p) == HeadingLvl(p.style)
    ensures RulesOf(o).shouldClearBodyElem(p) == ShouldClearBodyElem(o, p.style)
    ensures RulesOf(o).shouldClearNested == o.bibliography && RulesOf(o).shouldClearOther == o.bibliography
  {
  }

  /**
   * The level of every non-empty heading is read, whether or not a section
   * is open: a heading without a number stops the pass.
   */
  lemma LevelReadWithoutSection(o: Options, st: Option<Section>, p: Paragraph)
    requires Text(p) != "" && IsHeading(p.style) && HeadingLvl(p.style).Failure?
    ensures StepPara(RulesOf(o), st, p) == Failure(HeadingLevelError(p.style))
  {
    RulesOfAnswers(o, p, LevelOf(st));
  }

  /** The only error of a step is a non-empty heading whose level cannot be read. */
  lemma StepFails(o: Options, st: Option<Section>, e: BodyElem)
    requires StepElem(RulesOf(o), st, e).Failure?
    ensures e.Para? && Text(e.p) != "" && IsHeading(e.p.style) && HeadingLvl(e.p.style).Failure?
  {
    RulesOfAnswers(o, e.p, LevelOf(st));
  }

  /**
   * A heading whose lowered text is among the lowered ignored sections opens
   * a section at its own level, whatever was open before (no nesting), and
   * is itself removed.
   */
  lemma OpensSection(o: Options, st: Option<Section>, p: Paragraph)
    requires Text(p) != "" && IsIgnoreSect(o, p) && HeadingLvl(p.style).Success?
    ensures StepPara(RulesOf(o), st, p) == Success((Remove, Some(Section(Lower(Text(p)), HeadingLvl(p.style).value))))
  {
    RulesOfAnswers(o, p, LevelOf(st));
  }

  /**
   * Inside an open section every non-empty paragraph that is not a heading
   * at the section's level is removed; a matching heading replaces the
   * section, anything else leaves it open.
   */
  lemma RemovedInsideSection(o: Options, s: Section, p: Paragraph)
    requires Text(p) != ""
    requires IsHeading(p.style) ==> HeadingLvl(p.style).Success? && HeadingLvl(p.style).value != s.level
    ensures StepPara(RulesOf(o), Some(s), p) == Success((Remove,
      if IsIgnoreSect(o, p) then Some(Section(Lower(Text(p)), HeadingLvl(p.style).value)) else Some(s)))
  {
    RulesOfAnswers(o, p, LevelOf(Some(s)));
    assert IsIgnoreEnd(p, Some(s.level)) == Success(false);
    StepInside(RulesOf(o), s, p);
  }

  /** The step inside a section that does not end there, for any helpers. */
  lemma StepInside(r: Rules, s: Section, p: Paragraph)
    requires Text(p) != "" && r.isIgnoreEnd(p, Some(s.level)) == Success(false)
    requires r.isIgnoreSect(p) ==> r.headingLvl(p).Success?
    ensures StepPara(r, Some(s), p) == Success((Remove,
      if r.isIgnoreSect(p) then Some(Section(Lower(Text(p)), r.headingLvl(p).value)) else Some(s)))
  {
  }

  /**
   * A heading at exactly the open section's level closes it before the
   * removal decision: it is judged as if no section had been open.
   */
  lemma ClosingHeading(o: Options, s: Section, p: Paragraph)
    requires Text(p) != "" && IsHeading(p.style) && HeadingLvl(p.style) == Success(s.level)
    ensures StepPara(RulesOf(o), Some(s), p) == StepPara(RulesOf(o), None, p)
    ensures !IsIgnoreSect(o, p) ==> StepPara(RulesOf(o), Some(s), p).value.1 == None
  {
    RulesOfAnswers(o, p, LevelOf(Some(s)));
    RulesOfAnswers(o, p, None);
  }

  /**
   * Outside a section, a non-empty paragraph that opens none is removed
   * exactly when an enabled style check matches it, stripped exactly when
   * no check matches and bibliography is on, and kept otherwise.
   */
  lemma DecidedByToggles(o: Options, p: Paragraph)
    requires Text(p) != "" && !IsIgnoreSect(o, p)
    requires IsHeading(p.style) ==> HeadingLvl(p.style).Success?
    ensures StepPara(RulesOf(o), None, p).Success? && StepPara(RulesOf(o), None, p).value.1 == None
    ensures var clear := || (o.headings && IsHeading(p.style)) || (o.titles && IsTitle(p.style))
                         || (o.subtitles && IsSubtitle(p.style)) || (o.captions && IsCaption(p.style));
      && (StepPara(RulesOf(o), None, p).value.0 == Remove <==> clear)
      && (StepPara(RulesOf(o), None, p).value.0 == Strip <==> !clear && o.bibliography)
  {
    RulesOfAnswers(o, p, None);
  }

  /** With the four style toggles off, no paragraph outside a section is removed. */
  lemma TogglesOffRemoveNothing(o: Options, p: Paragraph)
    requires !o.headings && !o.titles && !o.subtitles && !o.captions
    requires Text(p) != "" && !IsIgnoreSect(o, p)
    requires IsHeading(p.style) ==> HeadingLvl(p.style).Success?
    ensures StepPara(RulesOf(o), None, p).Success? && StepPara(RulesOf(o), None, p).value.0 != Remove
  {
    DecidedByToggles(o, p);
  }

  /**
   * An empty paragraph, a table and any other child of the body are passed
   * over: kept as they are, with the section state unchanged.
   */
  lemma PassedOver(r: Rules, st: Option<Section>, e: BodyElem, rest: seq<BodyElem>)
    requires !e.Para? || Text(e.p) == ""
    ensures Walk(r, st, [e] + rest) == Prepend([e], Walk(r, st, rest))
  {
    assert ([e] + rest)[0] == e && ([e] + rest)[1..] == rest;
  }

  // ---------------------------------------------------------------------
  // A section that never closes

  /** The blocks that are not non-empty paragraphs, in order. */
  function NonText(elems: seq<BodyElem>): seq<BodyElem>
    decreases |elems|
  {
    if elems == [] then []
    else (if elems[0].Para? && Text(elems[0].p) != "" then [] else [elems[0]]) + NonText(elems[1..])
  }

  /** A block that neither closes section `s` nor opens another one. */
  predicate KeepsOpen(o: Options, s: Section, e: BodyElem) {
    e.Para? && Text(e.p) != "" && IsHeading(e.p.style) ==>
      HeadingLvl(e.p.style).Success? && HeadingLvl(e.p.style).value != s.level && !IsIgnoreSect(o, e.p)
  }

  /**
   * A section that is never closed removes every remaining non-empty
   * paragraph and leaves every other block in place.
   */
  lemma {:induction false} NeverClosing(o: Options, s: Section, elems: seq<BodyElem>)
    requires forall k :: 0 <= k < |elems| ==> KeepsOpen(o, s, elems[k])
    ensures Walk(RulesOf(o), Some(s), elems) == Pass(NonText(elems), Some(s), None)
    decreases |elems|
  {
    if elems != [] {
      var e := elems[0];
      assert KeepsOpen(o, s, e);
      assert forall k :: 0 <= k < |elems[1..]| ==> elems[1..][k] == elems[k + 1];
      NeverClosing(o, s, elems[1..]);
      if e.Para? && Text(e.p) != "" {
        RemovedInsideSection(o, s, e.p);
      }
    }
  }
  /**
   * A document that opens with an ignored heading whose section never
   * closes: the heading and every text paragraph after it are removed.
   */
  lemma IgnoredSectionWalk(o: Options, h: Paragraph, rest: seq<BodyElem>)
    requires Text(h) != "" && IsIgnoreSect(o, h) && HeadingLvl(h.style).Success?
    requires forall k :: 0 <= k < |rest| ==>
      KeepsOpen(o, Section(Lower(Text(h)), HeadingLvl(h.style).value), rest[k])
    ensures Walk(RulesOf(o), None, [Para(h)] + rest)
      == Pass(NonText(rest), Some(Section(Lower(Text(h)), HeadingLvl(h.style).value)), None)
  {
    var s := Section(Lower(Text(h)), HeadingLvl(h.style).value);
    OpensSection(o, None, h);
    RemovedFirst(RulesOf(o), None, Para(h), rest, Some(s));
    NeverClosing(o, s, rest);
  }

  /** A block the pass removes contributes nothing; the pass goes on from the new state. */
  lemma RemovedFirst(r: Rules, st: Option<Section>, e: BodyElem, rest: seq<BodyElem>, st': Option<Section>)
    requires StepElem(r, st, e) == Success((Remove, st'))
    ensures Walk(r, st, [e] + rest) == Walk(r, st', rest)
  {
    WalkCons(r, st, e, rest);
    assert [] + Walk(r, st', rest).out == Walk(r, st', rest).out;
  }


  // ---------------------------------------------------------------------
  // What the output body is made of

  /**
   * `out` is `inp` with some non-empty paragraphs deleted, every other
   * paragraph stripped of its content controls when `strip` holds, body
   * content controls deleted when `dropSdts` holds, and every other block
   * unchanged, in the original order.
   */
  predicate Derived(inp: seq<BodyElem>, out: seq<BodyElem>, strip: bool, dropSdts: bool)
    decreases |inp|
  {
    if inp == [] then out == []
    else
      var e := inp[0];
      if e.Para? && Text(e.p) != "" then
        || Derived(inp[1..], out, strip, dropSdts)
        || (out != [] && out[0] == (if strip then Para(StripSdts(e.p)) else e) && Derived(inp[1..], out[1..], strip, dropSdts))
      else if e.BodySdt? && dropSdts then Derived(inp[1..], out, strip, dropSdts)
      else out != [] && out[0] == e && Derived(inp[1..], out[1..], strip, dropSdts)
  }

  /**
   * Whatever the helpers answer, one step either deletes a non-empty
   * paragraph or leaves the block in place, stripped when it is a non-empty
   * paragraph and `should_clear_nested` holds.
   */
  lemma StepShape(r: Rules, st: Option<Section>, e: BodyElem)
    requires StepElem(r, st, e).Success?
    ensures var a := StepElem(r, st, e).value.0;
      || (a == Remove && e.Para? && Text(e.p) != "")
      || Apply(a, e) == [if e.Para? && Text(e.p) != "" && r.shouldClearNested then Para(StripSdts(e.p)) else e]
  {
  }

  /** The loop of `process_doc` only deletes non-empty paragraphs, and strips the others when `should_clear_nested` holds. */
  lemma {:induction false} WalkDerived(r: Rules, st: Option<Section>, elems: seq<BodyElem>)
    requires Walk(r, st, elems).err.None?
    ensures Derived(elems, Walk(r, st, elems).out, r.shouldClearNested, false)
    decreases |elems|
  {
    if elems != [] {
      var e := elems[0];
      var (a, st') := StepElem(r, st, e).value;
      var w := Walk(r, st', elems[1..]);
      WalkDerived(r, st', elems[1..]);
      StepShape(r, st, e);
      var out := Apply(a, e) + w.out;
      assert Walk(r, st, elems).out == out;
      if !(a == Remove && e.Para? && Text(e.p) != "") {
        var kept := if e.Para? && Text(e.p) != "" && r.shouldClearNested then Para(StripSdts(e.p)) else e;
        assert out == [kept] + w.out;
        assert out[0] == kept && out[1..] == w.out;
      } else {
        assert out == w.out;
      }
    }
  }

  /** The trailing pass of `rm_other` deletes exactly the body's content controls. */
  lemma {:induction false} DropSdtsDerived(inp: seq<BodyElem>, out: seq<BodyElem>, strip: bool)
    requires Derived(inp, out, strip, false)
    ensures Derived(inp, WithoutBodySdts(out), strip, true)
    decreases |inp|
  {
    if inp != [] {
      var e := inp[0];
      if e.Para? && Text(e.p) != "" && Derived(inp[1..], out, strip, false) {
        DropSdtsDerived(inp[1..], out, strip);
      } else {
        DropSdtsDerived(inp[1..], out[1..], strip);
        assert out == [out[0]] + out[1..];
        WithoutBodySdtsAppend([out[0]], out[1..]);
      }
    }
  }

  /**
   * The output of a pass that raised no error is the input with some
   * non-empty paragraphs deleted, the others stripped exactly when
   * bibliography is on, the body content controls deleted exactly when
   * bibliography is on, and nothing else changed or reordered.
   */
  lemma ProcessDerived(o: Options, body: seq<BodyElem>)
    requires Process(RulesOf(o), body).err.None?
    ensures Derived(body, Process(RulesOf(o), body).body, o.bibliography, o.bibliography)
  {
    var w := Walk(RulesOf(o), None, body);
    WalkDerived(RulesOf(o), None, body);
    if o.bibliography {
      DropSdtsDerived(body, w.out, true);
    }
  }

  /** The top-level tables, in order. */
  function Tables(s: seq<BodyElem>): seq<BodyElem>
    decreases |s|
  {
    if s == [] then [] else (if s[0].Table? then [s[0]] else []) + Tables(s[1..])
  }

  /** Deleting and stripping paragraphs and deleting content controls keeps every table as it was. */
  lemma {:induction false} DerivedKeepsTables(inp: seq<BodyElem>, out: seq<BodyElem>, strip: bool, dropSdts: bool)
    requires Derived(inp, out, strip, dropSdts)
    ensures Tables(out) == Tables(inp)
    decreases |inp|
  {
    if inp != [] {
      var e := inp[0];
      if e.Para? && Text(e.p) != "" && Derived(inp[1..], out, strip, dropSdts) {
        DerivedKeepsTables(inp[1..], out, strip, dropSdts);
      } else if e.BodySdt? && dropSdts {
        DerivedKeepsTables(inp[1..], out, strip, dropSdts);
      } else {
        DerivedKeepsTables(inp[1..], out[1..], strip, dropSdts);
      }
    }
  }

  /** Top-level tables are never removed or modified. */
  lemma TablesSurvive(o: Options, body: seq<BodyElem>)
    requires Process(RulesOf(o), body).err.None?
    ensures Tables(Process(RulesOf(o), body).body) == Tables(body)
  {
    ProcessDerived(o, body);
    DerivedKeepsTables(body, Process(RulesOf(o), body).body, o.bibliography, o.bibliography);
  }

  // ---------------------------------------------------------------------
  // Errors

  /** The position of the first block whose step fails; the length when none does. */
  function FailAt(r: Rules, st: Option<Section>, elems: seq<BodyElem>): (k: nat)
    ensures k <= |elems|
    decreases |elems|
  {
    if elems == [] || StepElem(r, st, elems[0]).Failure? then 0
    else 1 + FailAt(r, StepElem(r, st, elems[0]).value.1, elems[1..])
  }

  /** The pass over a block followed by more blocks. */
  lemma WalkCons(r: Rules, st: Option<Section>, e: BodyElem, rest: seq<BodyElem>)
    requires StepElem(r, st, e).Success?
    ensures Walk(r, st, [e] + rest) == Prepend(Apply(StepElem(r, st, e).value.0, e), Walk(r, StepElem(r, st, e).value.1, rest))
  {
    assert ([e] + rest)[0] == e && ([e] + rest)[1..] == rest;
  }

  /**
   * The pass from `st` stops at block `k`: the blocks before it are
   * processed, that block and everything after it are untouched, and the
   * error is that block's.
   */
  ghost predicate StopsAt(r: Rules, st: Option<Section>, elems: seq<BodyElem>, k: nat) {
    k < |elems| &&
    var before := Walk(r, st, elems[..k]);
    && before.err.None? && StepElem(r, before.state, elems[k]).Failure?
    && Walk(r, st, elems) == Pass(before.out + elems[k..], before.state, Some(StepElem(r, before.state, elems[k]).error))
  }

  /** Stopping later in the rest is stopping one block later after a successful step. */
  lemma StopsLater(r: Rules, st: Option<Section>, e: BodyElem, rest: seq<BodyElem>, j: nat)
    requires StepElem(r, st, e).Success? && StopsAt(r, StepElem(r, st, e).value.1, rest, j)
    ensures StopsAt(r, st, [e] + rest, j + 1)
  {
    var elems := [e] + rest;
    var kept := Apply(StepElem(r, st, e).value.0, e);
    var before := Walk(r, StepElem(r, st, e).value.1, rest[..j]);
    PrefixCons(r, st, e, rest, j);
    assert rest[j] == elems[j + 1] && rest[j..] == elems[j + 1..];
    WalkCons(r, st, e, rest);
    assert kept + (before.out + rest[j..]) == (kept + before.out) + elems[j + 1..];
  }

  /** The pass over the first `j + 1` blocks is the first step followed by the pass over `j`. */
  lemma PrefixCons(r: Rules, st: Option<Section>, e: BodyElem, rest: seq<BodyElem>, j: nat)
    requires StepElem(r, st, e).Success? && j <= |rest|
    ensures Walk(r, st, ([e] + rest)[..j + 1])
      == Prepend(Apply(StepElem(r, st, e).value.0, e), Walk(r, StepElem(r, st, e).value.1, rest[..j]))
  {
    assert ([e] + rest)[..j + 1] == [e] + rest[..j];
    WalkCons(r, st, e, rest[..j]);
  }

  /** A pass that raises stops at the first block whose step fails. */
  lemma {:induction false} WalkStops(r: Rules, st: Option<Section>, elems: seq<BodyElem>)
    requires Walk(r, st, elems).err.Some?
    ensures StopsAt(r, st, elems, FailAt(r, st, elems))
    decreases |elems|
  {
    var e := elems[0];
    if StepElem(r, st, e).Failure? {
      assert elems[..0] == [] && elems[0..] == elems;
    } else {
      var rest := elems[1..];
      WalkStops(r, StepElem(r, st, e).value.1, rest);
      assert elems == [e] + rest;
      StopsLater(r, st, e, rest, FailAt(r, StepElem(r, st, e).value.1, rest));
    }
  }

  /**
   * `process_doc` raises only for a non-empty heading whose level cannot be
   * read; the body is then left with the blocks before it processed, that
   * heading and everything after it untouched, and no trailing pass.
   */
  lemma ProcessStops(o: Options, body: seq<BodyElem>)
    requires Process(RulesOf(o), body).err.Some?
    ensures var k := FailAt(RulesOf(o), None, body);
      && k < |body| && body[k].Para? && Text(body[k].p) != "" && IsHeading(body[k].p.style)
      && HeadingLvl(body[k].p.style).Failure?
      && Process(RulesOf(o), body) == Outcome(Walk(RulesOf(o), None, body[..k]).out + body[k..],
                                              Some(HeadingLevelError(body[k].p.style)))
  {
    var r := RulesOf(o);
    WalkStops(r, None, body);
    var k := FailAt(r, None, body);
    var st := Walk(r, None, body[..k]).state;
    StepFails(o, st, body[k]);
    LevelReadWithoutSection(o, st, body[k].p);
  }

  // ---------------------------------------------------------------------
  // A second pass changes nothing

  /** A block a pass from no open section keeps as it is, opening no section. */
  predicate Quiet(r: Rules, e: BodyElem) {
    e.Para? && Text(e.p) != "" ==>
      && r.isIgnoreEnd(e.p, None) == Success(false)
      && !r.isIgnoreSect(e.p)
      && !r.shouldClearBodyElem(e.p)
      && (r.shouldClearNested ==> NoSdts(e.p.content))
  }

  /** A body that `process_doc` leaves as it is. */
  predicate Settled(r: Rules, body: seq<BodyElem>) {
    forall e :: e in body ==> Quiet(r, e) && (r.shouldClearOther ==> !e.BodySdt?)
  }

  /** A pass over quiet blocks from no open section keeps them all and opens nothing. */
  lemma {:induction false} QuietWalk(r: Rules, elems: seq<BodyElem>)
    requires forall e :: e in elems ==> Quiet(r, e)
    ensures Walk(r, None, elems) == Pass(elems, None, None)
    decreases |elems|
  {
    if elems != [] {
      var e := elems[0];
      assert Quiet(r, e);
      assert forall x :: x in elems[1..] ==> x in elems;
      QuietWalk(r, elems[1..]);
      if e.Para? && Text(e.p) != "" && r.shouldClearNested {
        WithoutSdtsSpec(e.p.content);
      }
      assert elems == [e] + elems[1..];
    }
  }

  /** `process_doc` leaves a settled body unchanged and raises nothing. */
  lemma SettledFixed(r: Rules, body: seq<BodyElem>)
    requires Settled(r, body)
    ensures Process(r, body) == Outcome(body, None)
  {
    QuietWalk(r, body);
    if r.shouldClearOther {
      assert NoBodySdts(body) by {
        forall i | 0 <= i < |body| ensures !body[i].BodySdt? {
          assert body[i] in body;
        }
      }
      WithoutBodySdtsSpec(body);
    }
  }

  /** A paragraph the source's helpers let through from no open section, and which needs no stripping. */
  predicate QuietPara(o: Options, p: Paragraph) {
    && IsIgnoreEnd(p, None) == Success(false)
    && !IsIgnoreSect(o, p)
    && !ShouldClearBodyElem(o, p.style)
    && (o.bibliography ==> NoSdts(p.content))
  }

  lemma QuietParaQuiet(o: Options, p: Paragraph)
    requires QuietPara(o, p)
    ensures Quiet(RulesOf(o), Para(p))
  {
    RulesOfAnswers(o, p, None);
  }

  /** A non-empty paragraph a step keeps or strips is left quiet. */
  lemma KeptParaQuiet(o: Options, st: Option<Section>, p: Paragraph)
    requires Text(p) != "" && StepPara(RulesOf(o), st, p).Success?
    ensures var a := StepPara(RulesOf(o), st, p).value.0;
      && (a == Keep ==> !o.bibliography && QuietPara(o, p))
      && (a == Strip ==> QuietPara(o, StripSdts(p)))
  {
    RulesOfAnswers(o, p, LevelOf(st));
    var q := StripSdts(p);
    StripKeepsText(p);
    WithoutSdtsSpec(p.content);
    assert IsIgnoreEnd(q, None) == IsIgnoreEnd(p, None);
  }

  /** Every block one step leaves in place is quiet. */
  lemma StepQuiet(o: Options, st: Option<Section>, e: BodyElem)
    requires StepElem(RulesOf(o), st, e).Success?
    ensures forall x :: x in Apply(StepElem(RulesOf(o), st, e).value.0, e) ==> Quiet(RulesOf(o), x)
  {
    if e.Para? && Text(e.p) != "" {
      KeptParaQuiet(o, st, e.p);
      var a := StepElem(RulesOf(o), st, e).value.0;
      if a == Keep {
        QuietParaQuiet(o, e.p);
      } else if a == Strip {
        QuietParaQuiet(o, StripSdts(e.p));
      }
    }
  }

  /** Every block a pass that raised nothing leaves in the body is quiet. */
  lemma {:induction false} WalkQuiet(o: Options, st: Option<Section>, elems: seq<BodyElem>)
    requires Walk(RulesOf(o), st, elems).err.None?
    ensures forall x :: x in Walk(RulesOf(o), st, elems).out ==> Quiet(RulesOf(o), x)
    decreases |elems|
  {
    if elems != [] {
      var (a, st') := StepElem(RulesOf(o), st, elems[0]).value;
      StepQuiet(o, st, elems[0]);
      WalkQuiet(o, st', elems[1..]);
    }
  }

  /** Running `process_doc` on its own output changes nothing and raises nothing. */
  lemma Idempotent(o: Options, body: seq<BodyElem>)
    requires Process(RulesOf(o), body).err.None?
    ensures Process(RulesOf(o), Process(RulesOf(o), body).body) == Outcome(Process(RulesOf(o), body).body, None)
  {
    var r := RulesOf(o);
    var w := Walk(r, None, body);
    WalkQuiet(o, None, body);
    var out := Process(r, body).body;
    if r.shouldClearOther {
      WithoutBodySdtsSpec(w.out);
      assert forall e :: e in out ==> e in w.out && !e.BodySdt? by {
        forall e | e in out ensures e in w.out && !e.BodySdt? {
          var i :| 0 <= i < |out| && out[i] == e;
        }
      }
    }
    SettledFixed(r, out);
  }
}
