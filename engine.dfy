/**
 * The content-removal engine: one forward pass over the body's children in
 * document order, tracking at most one open ignored section, deciding for
 * every non-empty paragraph whether it is removed, stripped of its content
 * controls or kept, and finally removing the body's own content controls.
 */
module Engine {
  import opened Wrappers
  import opened Strings
  import opened Checks
  import opened Config
  import opened Document

  /** `heading_lvl` raises ValueError: the style label has no parsable number. */
  datatype ProcessError = HeadingLevelError(style: string)

  /** The characters `lstrip("Heading ")` drops: a set, not a prefix. */
  const HeadingChars: set<char> := {'H', 'e', 'a', 'd', 'i', 'n', 'g', ' '}

  /** `heading_lvl`: strip leading characters of the set, then `int(...)`. */
  function HeadingLvl(style: string): Result<int, ProcessError> {
    match ParseInt(LStripChars(style, HeadingChars))
    case Some(n) => Success(n)
    case None => Failure(HeadingLevelError(style))
  }

  /** An open ignored section: the lowered heading text and the heading's level. */
  datatype Section = Section(name: string, level: int)

  /** `is_ignore_end`: a heading at exactly `lvl`; the level is read for every heading. */
  function IsIgnoreEnd(p: Paragraph, lvl: Option<int>): Result<bool, ProcessError> {
    if !IsHeading(p.style) then Success(false)
    else
      var l :- HeadingLvl(p.style);
      Success(lvl == Some(l))
  }

  function LowerAll(names: seq<string>): seq<string> {
    seq(|names|, i requires 0 <= i < |names| => Lower(names[i]))
  }

  /** `is_ignore_sect`: a heading whose text matches a configured name, ignoring case. */
  predicate IsIgnoreSect(o: Options, p: Paragraph) {
    IsHeading(p.style) && Lower(Text(p)) in LowerAll(o.ignoredSections)
  }

  /** The four style checks, keyed as the options that enable them. */
  datatype Check = HeadingCheck | TitleCheck | SubtitleCheck | CaptionCheck

  predicate Matches(c: Check, style: string) {
    match c
    case HeadingCheck => IsHeading(style)
    case TitleCheck => IsTitle(style)
    case SubtitleCheck => IsSubtitle(style)
    case CaptionCheck => IsCaption(style)
  }

  /** The toggles in the order the option table lists them. */
  function Toggles(o: Options): seq<(Check, bool)> {
    [(HeadingCheck, o.headings), (TitleCheck, o.titles), (SubtitleCheck, o.subtitles), (CaptionCheck, o.captions)]
  }

  /** The early-return scan of `should_clear_body_elem` over the toggles. */
  function AnyEnabledMatch(toggles: seq<(Check, bool)>, style: string): (r: bool)
    ensures r <==> exists i :: 0 <= i < |toggles| && toggles[i].1 && Matches(toggles[i].0, style)
    decreases |toggles|
  {
    if toggles == [] then false
    else if toggles[0].1 && Matches(toggles[0].0, style) then true
    else
      assert forall i :: 1 <= i < |toggles| ==> toggles[i] == toggles[1..][i - 1];
      AnyEnabledMatch(toggles[1..], style)
  }

  /** `should_clear_body_elem`: some enabled style check matches the paragraph. */
  function ShouldClearBodyElem(o: Options, style: string): (r: bool)
    ensures r <==>
      || (o.headings && IsHeading(style))
      || (o.titles && IsTitle(style))
      || (o.subtitles && IsSubtitle(style))
      || (o.captions && IsCaption(style))
  {
    ScanToggles(o, style);
    AnyEnabledMatch(Toggles(o), style)
  }

  lemma ScanToggles(o: Options, style: string)
    ensures AnyEnabledMatch(Toggles(o), style) <==>
      || (o.headings && IsHeading(style))
      || (o.titles && IsTitle(style))
      || (o.subtitles && IsSubtitle(style))
      || (o.captions && IsCaption(style))
  {
    var t := Toggles(o);
    if AnyEnabledMatch(t, style) {
      var i :| 0 <= i < |t| && t[i].1 && Matches(t[i].0, style);
      if i == 0 {} else if i == 1 {} else if i == 2 {} else { assert i == 3; }
    }
    if o.headings && IsHeading(style) { assert t[0].1 && Matches(t[0].0, style); }
    if o.titles && IsTitle(style) { assert t[1].1 && Matches(t[1].0, style); }
    if o.subtitles && IsSubtitle(style) { assert t[2].1 && Matches(t[2].0, style); }
    if o.captions && IsCaption(style) { assert t[3].1 && Matches(t[3].0, style); }
  }

  /** `should_clear_nested`. */
  predicate ShouldClearNested(o: Options) {
    o.bibliography
  }

  /** `should_clear_other`. */
  predicate ShouldClearOther(o: Options) {
    o.bibliography
  }

  /**
   * The helpers the loop of `process_doc` consults, as functions of the
   * block: the pass itself is the same whatever they answer.
   */
  datatype Rules = Rules(
    isIgnoreEnd: (Paragraph, Option<int>) -> Result<bool, ProcessError>,
    isIgnoreSect: Paragraph -> bool,
    headingLvl: Paragraph -> Result<int, ProcessError>,
    shouldClearBodyElem: Paragraph -> bool,
    shouldClearNested: bool,
    shouldClearOther: bool)

  /** The helpers of the source, reading the options `o`. */
  function RulesOf(o: Options): Rules {
    Rules(
      (p: Paragraph, lvl: Option<int>) => IsIgnoreEnd(p, lvl),
      (p: Paragraph) => IsIgnoreSect(o, p),
      (p: Paragraph) => HeadingLvl(p.style),
      (p: Paragraph) => ShouldClearBodyElem(o, p.style),
      ShouldClearNested(o),
      ShouldClearOther(o))
  }

  /** What the pass does with one block. */
  datatype Action = Keep | Remove | Strip

  /** The second state update: a matching heading (re)opens a section at its own level. */
  function OpenSection(r: Rules, p: Paragraph, st: Option<Section>): Result<Option<Section>, ProcessError> {
    if r.isIgnoreSect(p) then
      var l :- r.headingLvl(p);
      Success(Some(Section(Lower(Text(p)), l)))
    else Success(st)
  }

  function LevelOf(st: Option<Section>): Option<int> {
    if st.Some? then Some(st.value.level) else None
  }

  /** The removal decision, taken after both state updates. */
  function Decide(r: Rules, st: Option<Section>, p: Paragraph): Action {
    if st.Some? then Remove
    else if r.shouldClearBodyElem(p) then Remove
    else if r.shouldClearNested then Strip
    else Keep
  }

  /** One iteration of the loop of `process_doc` on a paragraph. */
  function StepPara(r: Rules, st: Option<Section>, p: Paragraph): Result<(Action, Option<Section>), ProcessError> {
    if Text(p) == "" then Success((Keep, st))
    else
      var ending :- r.isIgnoreEnd(p, LevelOf(st));
      var st2 :- OpenSection(r, p, if ending then None else st);
      Success((Decide(r, st2, p), st2))
  }

  /** One iteration on any direct child of the body: only paragraphs are acted on. */
  function StepElem(r: Rules, st: Option<Section>, e: BodyElem): Result<(Action, Option<Section>), ProcessError> {
    if e.Para? then StepPara(r, st, e.p) else Success((Keep, st))
  }

  /** The blocks an action leaves in place of `e`. */
  function Apply(a: Action, e: BodyElem): seq<BodyElem> {
    match a
    case Keep => [e]
    case Remove => []
    case Strip => if e.Para? then [Para(StripSdts(e.p))] else [e]
  }

  /**
   * The state of the body after the pass over `elems` from state `st`; on an
   * error the offending block and everything after it are untouched.
   */
  datatype Pass = Pass(out: seq<BodyElem>, state: Option<Section>, err: Option<ProcessError>)

  function Prepend(done: seq<BodyElem>, p: Pass): Pass {
    Pass(done + p.out, p.state, p.err)
  }

  function Walk(r: Rules, st: Option<Section>, elems: seq<BodyElem>): Pass
    decreases |elems|
  {
    if elems == [] then Pass([], st, None)
    else match StepElem(r, st, elems[0])
      case Failure(e) => Pass(elems, st, Some(e))
      case Success((a, st')) => Prepend(Apply(a, elems[0]), Walk(r, st', elems[1..]))
  }

  /** Block `i` of the snapshot stepped: it moves from the pending part to the done part. */
  lemma StepAt(r: Rules, blocks: seq<BodyElem>, i: nat, done: seq<BodyElem>, st: Option<Section>)
    requires i < |blocks| && StepElem(r, st, blocks[i]).Success?
    requires Walk(r, None, blocks) == Prepend(done, Walk(r, st, blocks[i..]))
    ensures Walk(r, None, blocks) == Prepend(done + Apply(StepElem(r, st, blocks[i]).value.0, blocks[i]),
                                             Walk(r, StepElem(r, st, blocks[i]).value.1, blocks[i + 1..]))
  {
    assert blocks[i..][0] == blocks[i] && blocks[i..][1..] == blocks[i + 1..];
  }

  /** Block `i` of the snapshot failed: it and everything after it stay as they were. */
  lemma StopAt(r: Rules, blocks: seq<BodyElem>, i: nat, done: seq<BodyElem>, st: Option<Section>)
    requires i < |blocks| && StepElem(r, st, blocks[i]).Failure?
    requires Walk(r, None, blocks) == Prepend(done, Walk(r, st, blocks[i..]))
    ensures Walk(r, None, blocks) == Pass(done + blocks[i..], st, Some(StepElem(r, st, blocks[i]).error))
  {
    assert blocks[i..][0] == blocks[i];
  }

  /** The body after `process_doc`, and the error it raised, if any. */
  datatype Outcome = Outcome(body: seq<BodyElem>, err: Option<ProcessError>)

  function Process(r: Rules, body: seq<BodyElem>): Outcome {
    var w := Walk(r, None, body);
    if w.err.Some? then Outcome(w.out, w.err)
    else if r.shouldClearOther then Outcome(WithoutBodySdts(w.out), None)
    else Outcome(w.out, None)
  }

  /** The section state the two variables of the loop encode. */
  function StateOf(sect: Option<string>, lvl: Option<int>): Option<Section> {
    if sect.Some? && lvl.Some? then Some(Section(sect.value, lvl.value)) else None
  }

  /**
   * The body of the loop of `process_doc` on a non-empty paragraph at
   * position `live` of the live body, with the section state held in the
   * loop's two variables.
   */
  method VisitPara(r: Rules, doc: Body, live: nat, ignoredSect: Option<string>, ignoredSectLvl: Option<int>)
    returns (err: Option<ProcessError>, sect: Option<string>, lvl: Option<int>)
    requires live < |doc.children| && doc.children[live].Para? && Text(doc.children[live].p) != ""
    requires (ignoredSect.Some? <==> ignoredSectLvl.Some?) && (ignoredSect.Some? ==> ignoredSect.value != "")
    modifies doc
    ensures var s := StepPara(r, StateOf(ignoredSect, ignoredSectLvl), old(doc.children[live].p));
      && (err.Some? <==> s.Failure?)
      && (err.Some? ==> err.value == s.error && doc.children == old(doc.children))
      && (err.None? ==>
            && (sect.Some? <==> lvl.Some?) && (sect.Some? ==> sect.value != "")
            && StateOf(sect, lvl) == s.value.1
            && doc.children == old(doc.children[..live] + Apply(s.value.0, doc.children[live]) + doc.children[live + 1..]))
  {
    var p := doc.children[live].p;
    ghost var before := doc.children;
    ghost var st := StateOf(ignoredSect, ignoredSectLvl);
    assert LevelOf(st) == ignoredSectLvl;
    sect, lvl := ignoredSect, ignoredSectLvl;
    var ending := r.isIgnoreEnd(p, lvl);
    if ending.Failure? {
      return Some(ending.error), sect, lvl;
    }
    if ending.value {
      sect, lvl := None, None;
    }
    if r.isIgnoreSect(p) {
      sect := Some(Lower(Text(p)));
      var l := r.headingLvl(p);
      if l.Failure? {
        return Some(l.error), sect, lvl;
      }
      lvl := Some(l.value);
    }
    ghost var a := Decide(r, StateOf(sect, lvl), p);
    assert StepPara(r, st, p) == Success((a, StateOf(sect, lvl)));
    ghost var kept: seq<BodyElem>;
    if sect.Some? && sect.value != "" {
      doc.RmElement(live);
      kept := [];
      assert before[..live] + kept == before[..live];
    } else if r.shouldClearBodyElem(p) {
      doc.RmElement(live);
      kept := [];
      assert before[..live] + kept == before[..live];
    } else if r.shouldClearNested {
      doc.RmNested(live);
      kept := [Para(StripSdts(p))];
      assert doc.children == before[..live] + kept + before[live + 1..];
    } else {
      kept := [Para(p)];
      assert doc.children == before[..live] + kept + before[live + 1..];
    }
    assert kept == Apply(a, before[live]);
    err := None;
  }

  /** The loop invariant of `process_doc` after `i` blocks of the snapshot. */
  ghost predicate Visited(r: Rules, blocks: seq<BodyElem>, i: nat, body: seq<BodyElem>, done: seq<BodyElem>,
                          sect: Option<string>, lvl: Option<int>)
  {
    && i <= |blocks|
    && body == done + blocks[i..]
    && (sect.Some? <==> lvl.Some?)
    && (sect.Some? ==> sect.value != "")
    && Walk(r, None, blocks) == Prepend(done, Walk(r, StateOf(sect, lvl), blocks[i..]))
  }

  /** One iteration of the loop of `process_doc`, on block `i` of the snapshot. */
  method VisitBlock(r: Rules, doc: Body, blocks: seq<BodyElem>, i: nat, ghost done: seq<BodyElem>, live: nat,
                    ignoredSect: Option<string>, ignoredSectLvl: Option<int>)
    returns (err: Option<ProcessError>, sect: Option<string>, lvl: Option<int>, ghost done': seq<BodyElem>, live': nat)
    requires i < |blocks| && live == |done|
    requires Visited(r, blocks, i, doc.children, done, ignoredSect, ignoredSectLvl)
    modifies doc
    ensures err.Some? ==> Walk(r, None, blocks) == Pass(doc.children, Walk(r, None, blocks).state, err)
    ensures err.None? ==> Visited(r, blocks, i + 1, doc.children, done', sect, lvl) && live' == |done'|
  {
    done', live' := done, live;
    ghost var st := StateOf(ignoredSect, ignoredSectLvl);
    var e := blocks[i];
    assert doc.children[live] == e;
    if e.Para? && Text(e.p) != "" {
      err, sect, lvl := VisitPara(r, doc, live, ignoredSect, ignoredSectLvl);
      if err.Some? {
        StopAt(r, blocks, i, done, st);
        return;
      }
      StepAt(r, blocks, i, done, st);
      done' := done + Apply(StepElem(r, st, e).value.0, e);
      // the visited paragraph is at `live` if it survived; what follows is the rest of the snapshot
      live' := |doc.children| - (|blocks| - (i + 1));
    } else {
      // empty paragraphs are skipped, tables are passed over, and other
      // children of the body are not visited
      StepAt(r, blocks, i, done, st);
      err, sect, lvl := None, ignoredSect, ignoredSectLvl;
      done', live' := done + [e], live + 1;
    }
  }

  /**
   * The pass of `process_doc` under the helpers `r`: iterates a snapshot of
   * the body's children, deleting and editing the live body as it goes.
   */
  method Sweep(r: Rules, doc: Body) returns (err: Option<ProcessError>)
    modifies doc
    ensures Outcome(doc.children, err) == Process(r, old(doc.children))
  {
    var blocks := doc.children;
    var ignoredSect: Option<string> := None;
    var ignoredSectLvl: Option<int> := None;
    var live := 0;
    ghost var done: seq<BodyElem> := [];
    assert blocks[0..] == blocks && done + Walk(r, None, blocks).out == Walk(r, None, blocks).out;
    for i := 0 to |blocks|
      invariant Visited(r, blocks, i, doc.children, done, ignoredSect, ignoredSectLvl) && live == |done|
    {
      var stepErr;
      stepErr, ignoredSect, ignoredSectLvl, done, live := VisitBlock(r, doc, blocks, i, done, live, ignoredSect, ignoredSectLvl);
      if stepErr.Some? {
        return stepErr;
      }
    }
    assert blocks[|blocks|..] == [];
    if r.shouldClearOther {
      doc.RmOther();
    }
    err := None;
  }

  /** `process_doc` under the options `o`. */
  method ProcessDoc(o: Options, doc: Body) returns (err: Option<ProcessError>)
    modifies doc
    ensures Outcome(doc.children, err) == Process(RulesOf(o), old(doc.children))
  {
    err := Sweep(RulesOf(o), doc);
  }
}
