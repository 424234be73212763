/**
 * The document body the engine walks: its direct children in document
 * order, and the three in-place removals the engine performs on it.
 */
module Document {

  /** A direct child of a paragraph. */
  datatype Inline =
    | Run(text: string)          // text-bearing content: a run, or a hyperlink's runs
    | InlineSdt(content: string) // a content control (`w:sdt`), e.g. a citation
    | InlineOther(tag: string)   // anything else: bookmarks, proofing marks, ...

  datatype Paragraph = Paragraph(style: string, content: seq<Inline>)

  /** A direct child of the body. */
  datatype BodyElem =
    | Para(p: Paragraph)
    | Table(rows: seq<seq<seq<BodyElem>>>) // rows of cells, each cell a block sequence
    | BodySdt(content: string)              // a body-level content control
    | BodyOther(tag: string)                // e.g. the section properties

  /** A paragraph's text: its runs' text, in order; content controls contribute nothing. */
  function RunsText(content: seq<Inline>): string
    decreases |content|
  {
    if content == [] then ""
    else (if content[0].Run? then content[0].text else "") + RunsText(content[1..])
  }

  function Text(p: Paragraph): string {
    RunsText(p.content)
  }

  predicate NoSdts(content: seq<Inline>) {
    forall i :: 0 <= i < |content| ==> !content[i].InlineSdt?
  }

  /** A paragraph's content with its direct content controls taken out. */
  function WithoutSdts(content: seq<Inline>): seq<Inline>
    decreases |content|
  {
    if content == [] then []
    else if content[0].InlineSdt? then WithoutSdts(content[1..])
    else [content[0]] + WithoutSdts(content[1..])
  }

  function StripSdts(p: Paragraph): Paragraph {
    Paragraph(p.style, WithoutSdts(p.content))
  }

  /**
   * What is left has no content control, holds exactly the children that
   * are not content controls, and is the content itself when there was none
   * to take out.
   */
  lemma {:induction false} WithoutSdtsSpec(content: seq<Inline>)
    ensures |WithoutSdts(content)| <= |content| && NoSdts(WithoutSdts(content))
    ensures NoSdts(content) ==> WithoutSdts(content) == content
    ensures forall x :: x in WithoutSdts(content) <==> x in content && !x.InlineSdt?
    decreases |content|
  {
    if content != [] {
      WithoutSdtsSpec(content[1..]);
      assert content == [content[0]] + content[1..];
    }
  }

  /** A single child survives iff it is not a content control. */
  lemma WithoutSdtsOne(x: Inline)
    ensures WithoutSdts([x]) == if x.InlineSdt? then [] else [x]
  {
    assert [x][1..] == [];
  }

  /**
   * Taking out content controls works piecewise; with `WithoutSdtsOne` this
   * fixes the result: every other child is kept, in order.
   */
  lemma {:induction false} WithoutSdtsAppend(a: seq<Inline>, b: seq<Inline>)
    ensures WithoutSdts(a + b) == WithoutSdts(a) + WithoutSdts(b)
    decreases |a|
  {
    if a != [] {
      assert (a + b)[0] == a[0] && (a + b)[1..] == a[1..] + b;
      WithoutSdtsAppend(a[1..], b);
    } else {
      assert a + b == b;
    }
  }

  /** Taking out content controls leaves the text unchanged. */
  lemma {:induction false} WithoutSdtsKeepsText(content: seq<Inline>)
    ensures RunsText(WithoutSdts(content)) == RunsText(content)
    decreases |content|
  {
    if content != [] {
      WithoutSdtsKeepsText(content[1..]);
      if !content[0].InlineSdt? {
        assert ([content[0]] + WithoutSdts(content[1..]))[1..] == WithoutSdts(content[1..]);
      }
    }
  }

  /** Stripping keeps a paragraph's style and text. */
  lemma StripKeepsText(p: Paragraph)
    ensures StripSdts(p).style == p.style && Text(StripSdts(p)) == Text(p)
  {
    WithoutSdtsKeepsText(p.content);
  }

  /** Stripping twice is stripping once. */
  lemma StripIdempotent(p: Paragraph)
    ensures StripSdts(StripSdts(p)) == StripSdts(p)
  {
    WithoutSdtsSpec(p.content);
    WithoutSdtsSpec(WithoutSdts(p.content));
  }

  /** One step of the removal loop of `rm_nested` at position `i`. */
  lemma WithoutSdtsAt(content: seq<Inline>, i: nat)
    requires i < |content|
    ensures content[i].InlineSdt? ==>
      var rest := content[..i] + content[i + 1..];
      rest[..i] == content[..i] && WithoutSdts(rest[i..]) == WithoutSdts(content[i..])
    ensures !content[i].InlineSdt? ==>
      content[..i] + WithoutSdts(content[i..]) == content[..i + 1] + WithoutSdts(content[i + 1..])
  {
    assert content[i..][1..] == content[i + 1..];
    if content[i].InlineSdt? {
      var rest := content[..i] + content[i + 1..];
      assert rest[..i] == content[..i];
      assert rest[i..] == content[i + 1..];
    } else {
      assert content[..i + 1] == content[..i] + [content[i]];
    }
  }

  predicate NoBodySdts(s: seq<BodyElem>) {
    forall i :: 0 <= i < |s| ==> !s[i].BodySdt?
  }

  /** The body's children with its direct content controls taken out. */
  function WithoutBodySdts(s: seq<BodyElem>): seq<BodyElem>
    decreases |s|
  {
    if s == [] then []
    else if s[0].BodySdt? then WithoutBodySdts(s[1..])
    else [s[0]] + WithoutBodySdts(s[1..])
  }

  /**
   * What is left has no body-level content control, holds exactly the
   * blocks that are not content controls, and is the body itself when there
   * was none to take out.
   */
  lemma {:induction false} WithoutBodySdtsSpec(s: seq<BodyElem>)
    ensures |WithoutBodySdts(s)| <= |s| && NoBodySdts(WithoutBodySdts(s))
    ensures forall e :: e in WithoutBodySdts(s) <==> e in s && !e.BodySdt?
    ensures NoBodySdts(s) ==> WithoutBodySdts(s) == s
    decreases |s|
  {
    if s != [] {
      WithoutBodySdtsSpec(s[1..]);
      assert s == [s[0]] + s[1..];
    }
  }

  /** A single block survives iff it is not a content control. */
  lemma WithoutBodySdtsOne(e: BodyElem)
    ensures WithoutBodySdts([e]) == if e.BodySdt? then [] else [e]
  {
    assert [e][1..] == [];
  }

  /**
   * Taking out body content controls works piecewise; with
   * `WithoutBodySdtsOne` this fixes the result: every other block is kept,
   * in order.
   */
  lemma {:induction false} WithoutBodySdtsAppend(a: seq<BodyElem>, b: seq<BodyElem>)
    ensures WithoutBodySdts(a + b) == WithoutBodySdts(a) + WithoutBodySdts(b)
    decreases |a|
  {
    if a != [] {
      assert (a + b)[1..] == a[1..] + b;
      WithoutBodySdtsAppend(a[1..], b);
    } else {
      assert a + b == b;
    }
  }

  /** One step of the removal loop of `rm_other` at position `i`. */
  lemma WithoutBodySdtsAt(s: seq<BodyElem>, i: nat)
    requires i < |s|
    ensures s[i].BodySdt? ==>
      var rest := s[..i] + s[i + 1..];
      rest[..i] == s[..i] && WithoutBodySdts(rest[i..]) == WithoutBodySdts(s[i..])
    ensures !s[i].BodySdt? ==>
      s[..i] + WithoutBodySdts(s[i..]) == s[..i + 1] + WithoutBodySdts(s[i + 1..])
  {
    assert s[i..][1..] == s[i + 1..];
    if s[i].BodySdt? {
      var rest := s[..i] + s[i + 1..];
      assert rest[..i] == s[..i];
      assert rest[i..] == s[i + 1..];
    } else {
      assert s[..i + 1] == s[..i] + [s[i]];
    }
  }

  /** The removal loop of `rm_nested`, on one paragraph's children. */
  method RemoveInlineSdts(children: seq<Inline>) returns (content: seq<Inline>)
    ensures content == WithoutSdts(children)
  {
    content := children;
    var i := 0;
    while i < |content|
      invariant 0 <= i <= |content|
      invariant WithoutSdts(children) == content[..i] + WithoutSdts(content[i..])
      decreases |content| - i
    {
      WithoutSdtsAt(content, i);
      if content[i].InlineSdt? {
        content := content[..i] + content[i + 1..];
      } else {
        i := i + 1;
      }
    }
    assert content[..i] == content && content[i..] == [];
  }

  /** The document body, whose children the engine deletes and edits in place. */
  class Body {
    var children: seq<BodyElem>

    constructor (children: seq<BodyElem>)
      ensures this.children == children
    {
      this.children := children;
    }

    /** `rm_element`: detaches the paragraph at position `k`. */
    method RmElement(k: nat)
      requires k < |children| && children[k].Para?
      modifies this
      ensures children == old(children[..k] + children[k + 1..])
    {
      children := children[..k] + children[k + 1..];
    }

    /** `rm_nested`: removes every direct content control of the paragraph at position `k`. */
    method RmNested(k: nat)
      requires k < |children| && children[k].Para?
      modifies this
      ensures children == old(children[k := Para(StripSdts(children[k].p))])
    {
      var p := children[k].p;
      var content := RemoveInlineSdts(p.content);
      children := children[k := Para(Paragraph(p.style, content))];
    }

    /** `rm_other`: removes every direct content control of the body. */
    method RmOther()
      modifies this
      ensures children == WithoutBodySdts(old(children))
    {
      var i := 0;
      while i < |children|
        invariant 0 <= i <= |children|
        invariant WithoutBodySdts(old(children)) == children[..i] + WithoutBodySdts(children[i..])
        decreases |children| - i
      {
        WithoutBodySdtsAt(children, i);
        if children[i].BodySdt? {
          children := children[..i] + children[i + 1..];
        } else {
          i := i + 1;
        }
      }
      assert children[..i] == children && children[i..] == [];
    }
  }
}
