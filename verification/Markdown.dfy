/** The block and list loop of `_markdown_to_html`. Lines arrive already classified. */
module Markdown {
  import opened Wrappers

  datatype Kind = Ul | Ol

  /** A heading line starts with one to four `#`. */
  type Hashes = n: nat | 1 <= n <= 4 witness 1

  datatype Line =
    | Rule
    | Heading(hashes: Hashes, text: string)
    | Item(kind: Kind, text: string)
    | Blank
    | Text(text: string)

  datatype Tag =
    | Hr
    | H(level: nat, text: string)
    | Open(kind: Kind)
    | Close(kind: Kind)
    | Li(text: string)
    | Empty
    | P(text: string)

  function Min(a: nat, b: nat): nat {
    if a < b then a else b
  }

  /** The block a line outside a list becomes. */
  function Block(line: Line): Tag
    requires !line.Item?
  {
    match line
    case Rule => Hr
    case Heading(hashes, text) => H(Min(hashes + 2, 6), text)
    case Blank => Empty
    case Text(text) => P(text)
  }

  // ---- the simple form: group maximal runs ----------------------------------------------------

  /** How many lines at the front are items of kind k. */
  function RunLength(lines: seq<Line>, k: Kind): (n: nat)
    ensures n <= |lines|
    ensures forall i | 0 <= i < n :: lines[i].Item? && lines[i].kind == k
    ensures n < |lines| ==> !(lines[n].Item? && lines[n].kind == k)
  {
    if lines != [] && lines[0].Item? && lines[0].kind == k then 1 + RunLength(lines[1..], k) else 0
  }

  function Items(lines: seq<Line>): seq<Tag>
    requires forall i | 0 <= i < |lines| :: lines[i].Item?
  {
    seq(|lines|, i requires 0 <= i < |lines| => Li(lines[i].text))
  }

  /** Every maximal run of items of one kind becomes one list of that kind; every other
      line becomes its block. */
  function Grouped(lines: seq<Line>): seq<Tag>
    decreases |lines|
  {
    if lines == [] then []
    else if lines[0].Item? then
      var n := RunLength(lines, lines[0].kind);
      [Open(lines[0].kind)] + (Items(lines[..n]) + [Close(lines[0].kind)] + Grouped(lines[n..]))
    else [Block(lines[0])] + Grouped(lines[1..])
  }

  /** What is still to be written with a list of kind `open` (or none) open. */
  function Remaining(open: Option<Kind>, lines: seq<Line>): seq<Tag> {
    match open
    case None => Grouped(lines)
    case Some(k) =>
      var n := RunLength(lines, k);
      Items(lines[..n]) + [Close(k)] + Grouped(lines[n..])
  }

  lemma FirstItem(run: seq<Line>)
    requires run != [] && forall i | 0 <= i < |run| :: run[i].Item?
    ensures Items(run) == [Li(run[0].text)] + Items(run[1..])
  {
  }

  /** A run after its first item. */
  lemma RestOfRun(k: Kind, lines: seq<Line>)
    requires lines != [] && lines[0].Item? && lines[0].kind == k
    ensures var n := RunLength(lines, k);
            && n > 0 && RunLength(lines[1..], k) == n - 1 && lines[1..][n - 1..] == lines[n..]
            && Items(lines[..n]) == [Li(lines[0].text)] + Items(lines[1..][..n - 1])
  {
    var n := RunLength(lines, k);
    assert lines[1..][..n - 1] == lines[..n][1..];
    FirstItem(lines[..n]);
  }

  lemma Regroup(a: seq<Tag>, b: seq<Tag>, c: seq<Tag>, d: seq<Tag>)
    ensures a + (b + c + d) == a + b + c + d
  {
  }

  /** An item of the open list is written as it is. */
  lemma RemainingItem(k: Kind, lines: seq<Line>)
    requires lines != [] && lines[0].Item? && lines[0].kind == k
    ensures Remaining(Some(k), lines) == [Li(lines[0].text)] + Remaining(Some(k), lines[1..])
  {
    var n := RunLength(lines, k);
    RestOfRun(k, lines);
    Regroup([Li(lines[0].text)], Items(lines[1..][..n - 1]), [Close(k)], Grouped(lines[n..]));
  }

  /** Anything else closes the list first. */
  lemma RemainingCloses(k: Kind, lines: seq<Line>)
    requires lines == [] || !lines[0].Item? || lines[0].kind != k
    ensures Remaining(Some(k), lines) == [Close(k)] + Grouped(lines)
  {
    assert RunLength(lines, k) == 0;
    assert lines[0..] == lines;
    assert Items(lines[..0]) == [];
  }

  /** An item with no list open opens one of its kind. */
  lemma GroupedOpens(lines: seq<Line>)
    requires lines != [] && lines[0].Item?
    ensures Grouped(lines) == [Open(lines[0].kind)] + Remaining(Some(lines[0].kind), lines)
  {
  }

  lemma NoRunFirst(k: Kind, lines: seq<Line>)
    requires Grouped(lines) == [] || Grouped(lines)[0] != Open(k)
    ensures lines == [] || !lines[0].Item? || lines[0].kind != k
  {
  }

  /** The tag `close_list` appends. */
  function ClosingTag(open: Option<Kind>): seq<Tag> {
    if open.Some? then [Close(open.value)] else []
  }

  /** The tags that come before an item when `open` is the open list. */
  function Opening(open: Option<Kind>, k: Kind): seq<Tag> {
    if open == Some(k) then [] else ClosingTag(open) + [Open(k)]
  }

  lemma OpeningAppended(out: seq<Tag>, open: Option<Kind>, k: Kind)
    ensures out + Opening(open, k) == if open == Some(k) then out else out + ClosingTag(open) + [Open(k)]
  {
  }

  lemma Chain(a: seq<Tag>, b: seq<Tag>, c: seq<Tag>, d: seq<Tag>)
    ensures a + (b + (c + d)) == (a + b) + c + d
  {
  }

  lemma ItemLine(open: Option<Kind>, lines: seq<Line>)
    requires lines != [] && lines[0].Item?
    ensures Remaining(open, lines)
         == Opening(open, lines[0].kind) + [Li(lines[0].text)] + Remaining(Some(lines[0].kind), lines[1..])
  {
    RemainingItem(lines[0].kind, lines);
    if open != Some(lines[0].kind) {
      GroupedOpens(lines);
      if open.Some? {
        RemainingCloses(open.value, lines);
      }
      Chain(ClosingTag(open), [Open(lines[0].kind)], [Li(lines[0].text)], Remaining(Some(lines[0].kind), lines[1..]));
    }
  }

  lemma BlockLine(open: Option<Kind>, lines: seq<Line>)
    requires lines != [] && !lines[0].Item?
    ensures Remaining(open, lines) == ClosingTag(open) + [Block(lines[0])] + Grouped(lines[1..])
  {
    if open.Some? {
      RemainingCloses(open.value, lines);
    }
  }

  /** `page` is what has been written followed by what remains to be written. */
  ghost predicate Continues(page: seq<Tag>, out: seq<Tag>, open: Option<Kind>, lines: seq<Line>) {
    page == out + Remaining(open, lines)
  }

  lemma AfterItem(page: seq<Tag>, out: seq<Tag>, open: Option<Kind>, lines: seq<Line>, next: seq<Tag>)
    requires lines != [] && lines[0].Item? && Continues(page, out, open, lines)
    requires next == out + Opening(open, lines[0].kind) + [Li(lines[0].text)]
    ensures Continues(page, next, Some(lines[0].kind), lines[1..])
  {
    ItemLine(open, lines);
    Regroup(out, Opening(open, lines[0].kind), [Li(lines[0].text)], Remaining(Some(lines[0].kind), lines[1..]));
  }

  lemma AfterBlock(page: seq<Tag>, out: seq<Tag>, open: Option<Kind>, lines: seq<Line>, next: seq<Tag>)
    requires lines != [] && !lines[0].Item? && Continues(page, out, open, lines)
    requires next == out + ClosingTag(open) + [Block(lines[0])]
    ensures Continues(page, next, None, lines[1..])
  {
    BlockLine(open, lines);
    Regroup(out, ClosingTag(open), [Block(lines[0])], Grouped(lines[1..]));
  }

  lemma AtTheEnd(page: seq<Tag>, out: seq<Tag>, open: Option<Kind>)
    requires Continues(page, out, open, [])
    ensures page == out + ClosingTag(open)
  {
    if open.Some? {
      RemainingCloses(open.value, []);
    }
  }

  /** The variables of `_markdown_to_html` that its closure `close_list` shares. */
  class Page {
    var out: seq<Tag>
    var listOpen: Option<Kind>

    constructor ()
      ensures out == [] && listOpen == None
    {
      out, listOpen := [], None;
    }

    method CloseList()
      modifies this
      ensures out == old(out) + ClosingTag(old(listOpen)) && listOpen == None
    {
      if listOpen.Some? {
        out := out + [Close(listOpen.value)];
        listOpen := None;
      }
    }

    /** One iteration: whatever page the output was a beginning of, it still is. */
    method WriteLine(line: Line, ghost page: seq<Tag>, ghost lines: seq<Line>)
      requires lines != [] && lines[0] == line && Continues(page, out, listOpen, lines)
      modifies this
      ensures Continues(page, out, listOpen, lines[1..])
    {
      ghost var was, open := out, listOpen;
      if line.Item? {
        if listOpen != Some(line.kind) {
          CloseList();
          out := out + [Open(line.kind)];
          listOpen := Some(line.kind);
        }
        OpeningAppended(was, open, line.kind);
        out := out + [Li(line.text)];
        AfterItem(page, was, open, lines, out);
      } else {
        CloseList();
        out := out + [Block(line)];
        AfterBlock(page, was, open, lines, out);
      }
    }
  }

  /** `_markdown_to_html` from the classified lines to the list `out`. */
  method MarkdownToHtml(lines: seq<Line>) returns (out: seq<Tag>)
    ensures out == Grouped(lines)
  {
    var page := new Page();
    assert lines[0..] == lines;
    var i := 0;
    while i < |lines|
      invariant 0 <= i <= |lines|
      invariant Continues(Grouped(lines), page.out, page.listOpen, lines[i..])
    {
      assert lines[i..][1..] == lines[i + 1..];
      page.WriteLine(lines[i], Grouped(lines), lines[i..]);
      i := i + 1;
    }
    AtTheEnd(Grouped(lines), page.out, page.listOpen);
    page.CloseList();
    out := page.out;
  }

  // ---- reading the output back ----------------------------------------------------------------

  function Prepend(line: Line, rest: Option<seq<Line>>): Option<seq<Line>> {
    match rest
    case None => None
    case Some(lines) => Some([line] + lines)
  }

  /** Reads a page back, knowing only the tags. None when lists are unbalanced or nested,
      when an item stands outside a list, or when a block stands inside one. An item is
      read with the kind of the list it stands in. */
  function Read(open: Option<Kind>, tags: seq<Tag>): Option<seq<Line>>
    decreases |tags|
  {
    if tags == [] then (if open.None? then Some([]) else None)
    else match tags[0]
      case Open(k) => if open.None? then Read(Some(k), tags[1..]) else None
      case Close(k) => if open == Some(k) then Read(None, tags[1..]) else None
      case Li(text) => if open.Some? then Prepend(Item(open.value, text), Read(open, tags[1..])) else None
      case Hr => if open.None? then Prepend(Rule, Read(open, tags[1..])) else None
      case Empty => if open.None? then Prepend(Blank, Read(open, tags[1..])) else None
      case P(text) => if open.None? then Prepend(Text(text), Read(open, tags[1..])) else None
      case H(level, text) =>
        if open.None? && 3 <= level <= 6 then Prepend(Heading(level - 2, text), Read(open, tags[1..])) else None
  }

  lemma ReadBlock(line: Line, tags: seq<Tag>)
    requires !line.Item?
    ensures Read(None, [Block(line)] + tags) == Prepend(line, Read(None, tags))
  {
    assert ([Block(line)] + tags)[1..] == tags;
  }

  lemma ReadItem(k: Kind, text: string, tags: seq<Tag>)
    ensures Read(Some(k), [Li(text)] + tags) == Prepend(Item(k, text), Read(Some(k), tags))
  {
    assert ([Li(text)] + tags)[1..] == tags;
  }

  lemma ReadListTag(k: Kind, tags: seq<Tag>)
    ensures Read(None, [Open(k)] + tags) == Read(Some(k), tags)
    ensures Read(Some(k), [Close(k)] + tags) == Read(None, tags)
  {
    assert ([Open(k)] + tags)[1..] == tags && ([Close(k)] + tags)[1..] == tags;
  }

  lemma {:induction false} ReadsBackOutside(lines: seq<Line>)
    ensures Read(None, Grouped(lines)) == Some(lines)
    decreases |lines|, 0
  {
    if lines != [] {
      assert lines == [lines[0]] + lines[1..];
      if lines[0].Item? {
        var k := lines[0].kind;
        GroupedOpens(lines);
        ReadListTag(k, Remaining(Some(k), lines));
        RemainingItem(k, lines);
        ReadItem(k, lines[0].text, Remaining(Some(k), lines[1..]));
        ReadsBack(Some(k), lines[1..]);
      } else {
        ReadBlock(lines[0], Grouped(lines[1..]));
        ReadsBackOutside(lines[1..]);
      }
    }
  }

  /** Round trip: the output is balanced, every item stands in a list of its own kind, and
      without the list tags it is the lines in order. The cap at level 6 loses nothing. */
  lemma {:induction false} ReadsBack(open: Option<Kind>, lines: seq<Line>)
    ensures Read(open, Remaining(open, lines)) == Some(lines)
    decreases |lines|, 1
  {
    if lines != [] {
      assert lines == [lines[0]] + lines[1..];
    }
    if open.Some? && lines != [] && lines[0].Item? && lines[0].kind == open.value {
      RemainingItem(open.value, lines);
      ReadItem(open.value, lines[0].text, Remaining(open, lines[1..]));
      ReadsBack(open, lines[1..]);
    } else if open.Some? {
      RemainingCloses(open.value, lines);
      ReadListTag(open.value, Grouped(lines));
      ReadsBackOutside(lines);
    } else {
      ReadsBackOutside(lines);
    }
  }

  /** No empty list, and no list that merely continues the one before it. */
  ghost predicate Tight(tags: seq<Tag>) {
    forall i | 0 < i < |tags| ::
      && !(tags[i - 1].Open? && tags[i].Close?)
      && !(tags[i - 1].Close? && tags[i] == Open(tags[i - 1].kind))
  }

  lemma TightCons(tag: Tag, tags: seq<Tag>)
    requires Tight(tags)
    requires tags != [] ==> !(tag.Open? && tags[0].Close?) && !(tag.Close? && tags[0] == Open(tag.kind))
    ensures Tight([tag] + tags)
  {
  }

  lemma {:induction false} GroupedIsTight(open: Option<Kind>, lines: seq<Line>)
    ensures Tight(Remaining(open, lines))
    decreases |lines|, if open.Some? then 1 else 0
  {
    if lines == [] {
      if open.Some? {
        RemainingCloses(open.value, lines);
      }
    } else if open.Some? && lines[0].Item? && lines[0].kind == open.value {
      RemainingItem(open.value, lines);
      GroupedIsTight(open, lines[1..]);
      TightCons(Li(lines[0].text), Remaining(open, lines[1..]));
    } else if open.Some? {
      RemainingCloses(open.value, lines);
      GroupedIsTight(None, lines);
      TightCons(Close(open.value), Grouped(lines));
    } else if lines[0].Item? {
      var k := lines[0].kind;
      GroupedOpens(lines);
      RemainingItem(k, lines);
      GroupedIsTight(Some(k), lines[1..]);
      TightCons(Li(lines[0].text), Remaining(Some(k), lines[1..]));
      TightCons(Open(k), Remaining(Some(k), lines));
    } else {
      GroupedIsTight(None, lines[1..]);
      TightCons(Block(lines[0]), Grouped(lines[1..]));
    }
  }

  lemma TightTail(tags: seq<Tag>)
    requires Tight(tags) && tags != []
    ensures Tight(tags[1..]) && tags == [tags[0]] + tags[1..] && (tags[1..] != [] ==> tags[1..][0] == tags[1])
  {
    var tail := tags[1..];
    forall i | 0 < i < |tail|
      ensures !(tail[i - 1].Open? && tail[i].Close?) && !(tail[i - 1].Close? && tail[i] == Open(tail[i - 1].kind))
    {
      assert tail[i - 1] == tags[i] && tail[i] == tags[i + 1];
    }
  }

  lemma BlockFirst(tags: seq<Tag>, lines: seq<Line>)
    requires tags != [] && (tags[0].Hr? || tags[0].H? || tags[0].Empty? || tags[0].P?)
    requires Read(None, tags) == Some(lines)
    ensures lines != [] && !lines[0].Item? && Block(lines[0]) == tags[0]
    ensures Read(None, tags[1..]) == Some(lines[1..])
    ensures Grouped(lines) == [tags[0]] + Grouped(lines[1..])
  {
  }

  /** The converse: a tight page that reads back as these lines is the grouped page. */
  lemma {:induction false} OnlyOneTightPage(open: Option<Kind>, tags: seq<Tag>, lines: seq<Line>)
    requires Tight(tags) && Read(open, tags) == Some(lines)
    ensures tags == Remaining(open, lines)
    decreases |tags|
  {
    if tags != [] {
      var tail := tags[1..];
      TightTail(tags);
      match tags[0]
      case Open(k) =>
        OnlyOneTightPage(Some(k), tail, lines);
        GroupedOpens(lines);
      case Close(k) =>
        OnlyOneTightPage(None, tail, lines);
        NoRunFirst(k, lines);
        RemainingCloses(k, lines);
      case Li(text) =>
        OnlyOneTightPage(open, tail, lines[1..]);
        RemainingItem(open.value, lines);
      case _ =>
        BlockFirst(tags, lines);
        OnlyOneTightPage(None, tail, lines[1..]);
    }
  }

  /** The page is determined by what it should say. */
  lemma PageIsDetermined(lines: seq<Line>, tags: seq<Tag>)
    ensures tags == Grouped(lines) <==> Read(None, tags) == Some(lines) && Tight(tags)
  {
    ReadsBack(None, lines);
    GroupedIsTight(None, lines);
    if Read(None, tags) == Some(lines) && Tight(tags) {
      OnlyOneTightPage(None, tags, lines);
    }
  }
}
