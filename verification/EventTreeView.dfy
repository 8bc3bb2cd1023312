/**
 The two ways the tool shows a tree: nested JSON, and lines drawn with box characters.

 Both are compared with one plain list, the visits of the whole tree in preorder with their depths.
 */
module EventTreeView {
  import opened Options
  import opened EventTree
  import opened EventTreeShape

  /** One node met in preorder. */
  datatype Visit = Visit(depth: int, ev: Ev, hasKids: bool)

  function Visits(t: Tree, depth: int): seq<Visit>
    decreases t
  {
    [Visit(depth, t.ev, |t.kids| > 0)] + VisitsAll(t.kids, depth + 1)
  }

  function VisitsAll(ts: seq<Tree>, depth: int): seq<Visit>
    decreases ts
  {
    if ts == [] then [] else Visits(ts[0], depth) + VisitsAll(ts[1..], depth)
  }

  function Visited(vs: seq<Visit>): (evs: seq<Ev>)
    ensures |evs| == |vs|
  {
    seq(|vs|, i requires 0 <= i < |vs| => vs[i].ev)
  }

  /** The visits meet the events of the tree in preorder. */
  lemma {:induction false} VisitsArePreorder(t: Tree, depth: int)
    ensures Visited(Visits(t, depth)) == Preorder(t)
    decreases t
  {
    VisitsAllArePreorder(t.kids, depth + 1);
    assert Visited(Visits(t, depth)) == [t.ev] + Visited(VisitsAll(t.kids, depth + 1));
  }

  lemma {:induction false} VisitsAllArePreorder(ts: seq<Tree>, depth: int)
    ensures Visited(VisitsAll(ts, depth)) == PreorderAll(ts)
    decreases ts
  {
    if ts != [] {
      VisitsArePreorder(ts[0], depth);
      VisitsAllArePreorder(ts[1..], depth);
      assert Visited(VisitsAll(ts, depth)) == Visited(Visits(ts[0], depth)) + Visited(VisitsAll(ts[1..], depth));
    }
  }

  // ---------------------------------------------------------------- toJSONEvent

  datatype Fields = Fields(id: int, timestamp: int, eventType: string, payload: Option<string>)

  datatype JsonEvent = JsonEvent(fields: Fields, children: seq<JsonEvent>)

  /** What is shown of one event; `parse` stands for decoding the payload, which may fail. */
  function Shown(ev: Ev, noPayload: bool, parse: string -> Option<string>): Fields {
    Fields(ev.id, ev.timestamp, ev.eventType,
           if !noPayload && ev.payload.Some? && ev.payload.value != "" then parse(ev.payload.value) else None)
  }

  /** The payload is shown unless it is left out by request, missing, empty or cannot be decoded. */
  lemma PayloadIsShown(ev: Ev, noPayload: bool, parse: string -> Option<string>)
    ensures var f := Shown(ev, noPayload, parse);
            && f.id == ev.id && f.timestamp == ev.timestamp && f.eventType == ev.eventType
            && (noPayload || ev.payload.None? || ev.payload.value == "" ==> f.payload.None?)
            && (!noPayload && ev.payload.Some? && ev.payload.value != "" ==> f.payload == parse(ev.payload.value))
  {
  }

  function ToJson(t: Tree, depth: int, maxDepth: int, show: Ev -> Fields): JsonEvent
    decreases t
  {
    if maxDepth > 0 && depth >= maxDepth then JsonEvent(show(t.ev), [])
    else JsonEvent(show(t.ev), ToJsonAll(t.kids, depth + 1, maxDepth, show))
  }

  function ToJsonAll(ts: seq<Tree>, depth: int, maxDepth: int, show: Ev -> Fields): seq<JsonEvent>
    decreases ts
  {
    if ts == [] then [] else [ToJson(ts[0], depth, maxDepth, show)] + ToJsonAll(ts[1..], depth, maxDepth, show)
  }

  /** The entries of a JSON document in the order they are written, with their nesting depths. */
  function Entries(j: JsonEvent, depth: int): seq<(int, Fields)>
    decreases j
  {
    [(depth, j.fields)] + EntriesAll(j.children, depth + 1)
  }

  function EntriesAll(js: seq<JsonEvent>, depth: int): seq<(int, Fields)>
    decreases js
  {
    if js == [] then [] else Entries(js[0], depth) + EntriesAll(js[1..], depth)
  }

  predicate Within(depth: int, maxDepth: int) {
    maxDepth <= 0 || depth <= maxDepth
  }

  /** The visits no deeper than the limit, shown. */
  function ShownWithin(vs: seq<Visit>, maxDepth: int, show: Ev -> Fields): seq<(int, Fields)> {
    if vs == [] then []
    else
      (if Within(vs[0].depth, maxDepth) then [(vs[0].depth, show(vs[0].ev))] else [])
      + ShownWithin(vs[1..], maxDepth, show)
  }

  lemma {:induction false} ShownWithinConcat(a: seq<Visit>, b: seq<Visit>, maxDepth: int, show: Ev -> Fields)
    ensures ShownWithin(a + b, maxDepth, show) == ShownWithin(a, maxDepth, show) + ShownWithin(b, maxDepth, show)
  {
    if a == [] {
      assert a + b == b;
    } else {
      assert (a + b)[0] == a[0] && (a + b)[1..] == a[1..] + b;
      ShownWithinConcat(a[1..], b, maxDepth, show);
      var first := if Within(a[0].depth, maxDepth) then [(a[0].depth, show(a[0].ev))] else [];
      var rest := ShownWithin(a[1..], maxDepth, show);
      assert ShownWithin(a + b, maxDepth, show) == first + (rest + ShownWithin(b, maxDepth, show));
      assert first + (rest + ShownWithin(b, maxDepth, show)) == first + rest + ShownWithin(b, maxDepth, show);
    }
  }

  lemma {:induction false} VisitsAreDeep(ts: seq<Tree>, depth: int)
    ensures forall v :: v in VisitsAll(ts, depth) ==> v.depth >= depth
    decreases ts
  {
    if ts != [] {
      VisitsAreDeep(ts[0].kids, depth + 1);
      VisitsAreDeep(ts[1..], depth);
    }
  }

  lemma {:induction false} NothingTooDeep(vs: seq<Visit>, maxDepth: int, show: Ev -> Fields)
    requires forall v :: v in vs ==> !Within(v.depth, maxDepth)
    ensures ShownWithin(vs, maxDepth, show) == []
  {
    if vs != [] {
      assert vs[0] in vs;
      NothingTooDeep(vs[1..], maxDepth, show);
    }
  }

  /** The JSON document holds exactly the nodes down to the limit, in preorder, at their own depths. */
  lemma {:induction false} JsonIsTheTreeCut(t: Tree, depth: int, maxDepth: int, show: Ev -> Fields)
    requires Within(depth, maxDepth)
    ensures Entries(ToJson(t, depth, maxDepth, show), depth) == ShownWithin(Visits(t, depth), maxDepth, show)
    decreases t
  {
    var v := Visit(depth, t.ev, |t.kids| > 0);
    ShownWithinConcat([v], VisitsAll(t.kids, depth + 1), maxDepth, show);
    assert [v][1..] == [];
    if maxDepth > 0 && depth >= maxDepth {
      VisitsAreDeep(t.kids, depth + 1);
      NothingTooDeep(VisitsAll(t.kids, depth + 1), maxDepth, show);
    } else {
      JsonForestIsCut(t.kids, depth + 1, maxDepth, show);
    }
  }

  lemma {:induction false} JsonForestIsCut(ts: seq<Tree>, depth: int, maxDepth: int, show: Ev -> Fields)
    requires Within(depth, maxDepth)
    ensures EntriesAll(ToJsonAll(ts, depth, maxDepth, show), depth) == ShownWithin(VisitsAll(ts, depth), maxDepth, show)
    decreases ts
  {
    if ts != [] {
      JsonIsTheTreeCut(ts[0], depth, maxDepth, show);
      JsonForestIsCut(ts[1..], depth, maxDepth, show);
      ShownWithinConcat(Visits(ts[0], depth), VisitsAll(ts[1..], depth), maxDepth, show);
      var js := ToJsonAll(ts, depth, maxDepth, show);
      assert js[1..] == ToJsonAll(ts[1..], depth, maxDepth, show);
    }
  }

  /** printJSON: the document of the whole tree from its root. */
  function RootJson(t: Tree, maxDepth: int, noPayload: bool, parse: string -> Option<string>): JsonEvent {
    ToJson(t, 1, maxDepth, ev => Shown(ev, noPayload, parse))
  }

  /** The printed document holds exactly the nodes down to the limit; without a limit, the whole tree. */
  lemma RootJsonIsTheTreeCut(t: Tree, maxDepth: int, noPayload: bool, parse: string -> Option<string>)
    ensures Entries(RootJson(t, maxDepth, noPayload, parse), 1)
            == ShownWithin(Visits(t, 1), maxDepth, ev => Shown(ev, noPayload, parse))
  {
    JsonIsTheTreeCut(t, 1, maxDepth, ev => Shown(ev, noPayload, parse));
  }

  // ------------------------------------------------------------------ printTree

  const MORE := "[...]"

  function Margin(prefix: string, isLast: bool, depth: int): string {
    if depth <= 1 then prefix else prefix + (if isLast then "    " else "│   ")
  }

  function NodeLine(ev: Ev, prefix: string, isLast: bool, depth: int, format: Ev -> string): string {
    if depth == 1 then format(ev) else prefix + (if isLast then "└── " else "├── ") + format(ev)
  }

  /** The lines printed, in order; `format` stands for formatEvent. */
  function PrintTree(t: Tree, prefix: string, isLast: bool, depth: int, maxDepth: int, format: Ev -> string)
    : seq<string>
    decreases t
  {
    var line := NodeLine(t.ev, prefix, isLast, depth, format);
    var margin := Margin(prefix, isLast, depth);
    if maxDepth > 0 && depth >= maxDepth then
      [line] + if |t.kids| > 0 then [margin + "└── [...]"] else []
    else
      [line] + PrintKids(t.kids, margin, depth + 1, maxDepth, format)
  }

  function PrintKids(ts: seq<Tree>, margin: string, depth: int, maxDepth: int, format: Ev -> string): seq<string>
    decreases ts
  {
    if ts == [] then []
    else
      PrintTree(ts[0], margin, |ts| == 1, depth, maxDepth, format)
      + PrintKids(ts[1..], margin, depth, maxDepth, format)
  }

  /** The rails to the left of a line: one for each node above it but the root, open where a sibling follows. */
  function Rails(lasts: seq<bool>): string {
    if lasts == [] then ""
    else Rails(lasts[..|lasts| - 1]) + (if lasts[|lasts| - 1] then "    " else "│   ")
  }

  /** The line of a node; `lasts` says of each node on the way down from the root whether it is a last child. */
  function Branch(lasts: seq<bool>, text: string): string {
    if lasts == [] then text
    else Rails(lasts[..|lasts| - 1]) + (if lasts[|lasts| - 1] then "└── " else "├── ") + text
  }

  function Drawing(t: Tree, lasts: seq<bool>, maxDepth: int, format: Ev -> string): seq<string>
    decreases t
  {
    [Branch(lasts, format(t.ev))]
    + if maxDepth <= 0 || |lasts| + 1 < maxDepth then DrawingAll(t.kids, lasts, maxDepth, format)
      else if t.kids == [] then []
      else [Branch(lasts + [true], "[...]")]
  }

  function DrawingAll(ts: seq<Tree>, lasts: seq<bool>, maxDepth: int, format: Ev -> string): seq<string>
    decreases ts
  {
    if ts == [] then []
    else Drawing(ts[0], lasts + [|ts| == 1], maxDepth, format) + DrawingAll(ts[1..], lasts, maxDepth, format)
  }

  lemma MarkIsDrawn(lasts: seq<bool>)
    ensures Branch(lasts + [true], "[...]") == Rails(lasts) + "└── [...]"
  {
    assert (lasts + [true])[..|lasts|] == lasts;
    assert "└── " + "[...]" == "└── [...]";
    assert Rails(lasts) + "└── " + "[...]" == Rails(lasts) + ("└── " + "[...]");
  }

  lemma LineIsDrawn(lasts: seq<bool>, isLast: bool, ev: Ev, format: Ev -> string)
    ensures NodeLine(ev, Rails(lasts), isLast, |lasts| + 2, format) == Branch(lasts + [isLast], format(ev))
    ensures Margin(Rails(lasts), isLast, |lasts| + 2) == Rails(lasts + [isLast])
  {
    assert (lasts + [isLast])[..|lasts|] == lasts;
  }

  lemma {:induction false} KidsAreDrawn(ts: seq<Tree>, lasts: seq<bool>, maxDepth: int, format: Ev -> string)
    ensures PrintKids(ts, Rails(lasts), |lasts| + 2, maxDepth, format) == DrawingAll(ts, lasts, maxDepth, format)
    decreases ts
  {
    if ts != [] {
      NodeIsDrawn(ts[0], lasts, |ts| == 1, maxDepth, format);
      KidsAreDrawn(ts[1..], lasts, maxDepth, format);
    }
  }

  lemma {:induction false} NodeIsDrawn(t: Tree, lasts: seq<bool>, isLast: bool, maxDepth: int, format: Ev -> string)
    ensures PrintTree(t, Rails(lasts), isLast, |lasts| + 2, maxDepth, format)
            == Drawing(t, lasts + [isLast], maxDepth, format)
    decreases t
  {
    var path := lasts + [isLast];
    LineIsDrawn(lasts, isLast, t.ev, format);
    MarkIsDrawn(path);
    KidsAreDrawn(t.kids, path, maxDepth, format);
    hide Rails, Branch, NodeLine, Margin;
  }

  /** What is printed from the root is the drawing: every rail and branch, and the mark of what is cut off. */
  lemma PrintedIsDrawn(t: Tree, isLast: bool, maxDepth: int, format: Ev -> string)
    ensures PrintTree(t, "", isLast, 1, maxDepth, format) == Drawing(t, [], maxDepth, format)
  {
    assert Rails([]) == "";
    MarkIsDrawn([]);
    assert "" + "└── [...]" == "└── [...]";
    KidsAreDrawn(t.kids, [], maxDepth, format);
  }

  /** A line read back: the depth its indentation stands for, and its text from the bracket on. */
  datatype Line = Line(depth: int, text: string)

  function Indent(line: string): (i: nat)
    ensures i <= |line|
  {
    if line == "" || line[0] == '[' then 0 else 1 + Indent(line[1..])
  }

  function ReadLine(line: string): Line {
    Line(Indent(line) / 4 + 1, line[Indent(line)..])
  }

  function ReadLines(lines: seq<string>): (r: seq<Line>)
    ensures |r| == |lines|
  {
    seq(|lines|, i requires 0 <= i < |lines| => ReadLine(lines[i]))
  }

  /** Every event is formatted as "[id] ...". */
  ghost predicate Bracketed(format: Ev -> string) {
    forall ev :: format(ev) != "" && format(ev)[0] == '['
  }

  /** What a visit must leave on the screen: its own line, and one more when its children are cut off. */
  function LinesOf(v: Visit, maxDepth: int, format: Ev -> string): seq<Line> {
    if !Within(v.depth, maxDepth) then []
    else [Line(v.depth, format(v.ev))]
         + if maxDepth > 0 && v.depth == maxDepth && v.hasKids then [Line(v.depth + 1, MORE)] else []
  }

  function LinesWithin(vs: seq<Visit>, maxDepth: int, format: Ev -> string): seq<Line> {
    if vs == [] then [] else LinesOf(vs[0], maxDepth, format) + LinesWithin(vs[1..], maxDepth, format)
  }

  lemma {:induction false} LinesWithinConcat(a: seq<Visit>, b: seq<Visit>, maxDepth: int, format: Ev -> string)
    ensures LinesWithin(a + b, maxDepth, format) == LinesWithin(a, maxDepth, format) + LinesWithin(b, maxDepth, format)
  {
    if a == [] {
      assert a + b == b;
    } else {
      assert (a + b)[1..] == a[1..] + b;
      LinesWithinConcat(a[1..], b, maxDepth, format);
      var first, rest := LinesOf(a[0], maxDepth, format), LinesWithin(a[1..], maxDepth, format);
      assert first + (rest + LinesWithin(b, maxDepth, format)) == first + rest + LinesWithin(b, maxDepth, format);
    }
  }

  lemma {:induction false} NoLinesTooDeep(vs: seq<Visit>, maxDepth: int, format: Ev -> string)
    requires forall v :: v in vs ==> !Within(v.depth, maxDepth)
    ensures LinesWithin(vs, maxDepth, format) == []
  {
    if vs != [] {
      assert vs[0] in vs;
      NoLinesTooDeep(vs[1..], maxDepth, format);
    }
  }

  /** No rune of the decoration is a bracket, and there are four of them for every level below the second. */
  predicate IsMargin(prefix: string, depth: int) {
    '[' !in prefix && |prefix| == if depth <= 2 then 0 else 4 * (depth - 2)
  }

  lemma {:induction false} IndentOf(decoration: string, text: string)
    requires '[' !in decoration && text != "" && text[0] == '['
    ensures Indent(decoration + text) == |decoration|
    ensures (decoration + text)[|decoration|..] == text
  {
    if decoration == "" {
      assert decoration + text == text;
    } else {
      assert (decoration + text)[1..] == decoration[1..] + text;
      IndentOf(decoration[1..], text);
    }
  }

  /** A printed line carries exactly four runes of decoration for each level above its own. */
  lemma LineReadsBack(prefix: string, connector: string, depth: int, text: string)
    requires depth > 1 && IsMargin(prefix, depth) && |connector| == 4 && '[' !in connector
    requires text != "" && text[0] == '['
    ensures Indent(prefix + connector + text) == 4 * (depth - 1)
    ensures ReadLine(prefix + connector + text) == Line(depth, text)
  {
    IndentOf(prefix + connector, text);
  }

  lemma ReadLinesConcat(a: seq<string>, b: seq<string>)
    ensures ReadLines(a + b) == ReadLines(a) + ReadLines(b)
  {
  }

  lemma ReadLinesCons(line: string, rest: seq<string>)
    ensures ReadLines([line] + rest) == [ReadLine(line)] + ReadLines(rest)
  {
    ReadLinesConcat([line], rest);
  }

  lemma LinesWithinCons(v: Visit, vs: seq<Visit>, maxDepth: int, format: Ev -> string)
    ensures LinesWithin([v] + vs, maxDepth, format) == LinesOf(v, maxDepth, format) + LinesWithin(vs, maxDepth, format)
  {
    assert ([v] + vs)[1..] == vs;
  }

  lemma NodeLineReadsBack(ev: Ev, prefix: string, isLast: bool, depth: int, format: Ev -> string)
    requires depth >= 1 && IsMargin(prefix, depth) && Bracketed(format)
    ensures ReadLine(NodeLine(ev, prefix, isLast, depth, format)) == Line(depth, format(ev))
  {
    var text := format(ev);
    assert text != "" && text[0] == '[';
    if depth == 1 {
      assert "" + text == text;
      IndentOf("", text);
    } else {
      LineReadsBack(prefix, if isLast then "└── " else "├── ", depth, text);
    }
  }

  lemma MarginGrows(prefix: string, isLast: bool, depth: int)
    requires depth >= 1 && IsMargin(prefix, depth)
    ensures IsMargin(Margin(prefix, isLast, depth), depth + 1)
  {
  }

  lemma CutLine(prefix: string, isLast: bool, depth: int)
    requires depth >= 1 && IsMargin(prefix, depth)
    ensures ReadLine(Margin(prefix, isLast, depth) + "└── [...]") == Line(depth + 1, MORE)
  {
    MarginGrows(prefix, isLast, depth);
    var margin := Margin(prefix, isLast, depth);
    LineReadsBack(margin, "└── ", depth + 1, MORE);
    assert margin + "└── " + MORE == margin + "└── [...]";
  }

  /**
   The lines printed are those of the visits down to the limit, in preorder, each indented for its depth,
   with one "[...]" line right below exactly the nodes at the limit that have children.
   */
  lemma {:induction false} PrintShowsTheVisits(
      t: Tree, prefix: string, isLast: bool, depth: int, maxDepth: int, format: Ev -> string)
    requires depth >= 1 && IsMargin(prefix, depth) && Within(depth, maxDepth) && Bracketed(format)
    ensures ReadLines(PrintTree(t, prefix, isLast, depth, maxDepth, format))
            == LinesWithin(Visits(t, depth), maxDepth, format)
    decreases t
  {
    NodeLineReadsBack(t.ev, prefix, isLast, depth, format);
    if maxDepth > 0 && depth >= maxDepth {
      hide *;
      PrintStopsAtTheLimit(t, prefix, isLast, depth, format);
    } else {
      var margin := Margin(prefix, isLast, depth);
      MarginGrows(prefix, isLast, depth);
      PrintKidsShowTheVisits(t.kids, margin, depth + 1, maxDepth, format);
      PrintGoesOn(t, prefix, isLast, depth, maxDepth, format);
    }
  }

  /** Above the limit the line of a node is followed by those of its children. */
  lemma PrintGoesOn(t: Tree, prefix: string, isLast: bool, depth: int, maxDepth: int, format: Ev -> string)
    requires maxDepth <= 0 || depth < maxDepth
    requires ReadLine(NodeLine(t.ev, prefix, isLast, depth, format)) == Line(depth, format(t.ev))
    requires ReadLines(PrintKids(t.kids, Margin(prefix, isLast, depth), depth + 1, maxDepth, format))
             == LinesWithin(VisitsAll(t.kids, depth + 1), maxDepth, format)
    ensures ReadLines(PrintTree(t, prefix, isLast, depth, maxDepth, format))
            == LinesWithin(Visits(t, depth), maxDepth, format)
  {
    hide ReadLine, NodeLine, Margin, LinesWithin, ReadLines, VisitsAll, PrintKids;
    ReadLinesCons(NodeLine(t.ev, prefix, isLast, depth, format),
                  PrintKids(t.kids, Margin(prefix, isLast, depth), depth + 1, maxDepth, format));
    LinesWithinCons(Visit(depth, t.ev, |t.kids| > 0), VisitsAll(t.kids, depth + 1), maxDepth, format);
  }

  lemma PrintStopsAtTheLimit(t: Tree, prefix: string, isLast: bool, depth: int, format: Ev -> string)
    requires depth >= 1 && IsMargin(prefix, depth) && Bracketed(format)
    ensures ReadLines(PrintTree(t, prefix, isLast, depth, depth, format))
            == LinesWithin(Visits(t, depth), depth, format)
  {
    hide Indent, ReadLine;
    var more := if |t.kids| > 0 then [Margin(prefix, isLast, depth) + "└── [...]"] else [];
    NodeLineReadsBack(t.ev, prefix, isLast, depth, format);
    CutLine(prefix, isLast, depth);
    VisitsAreDeep(t.kids, depth + 1);
    NoLinesTooDeep(VisitsAll(t.kids, depth + 1), depth, format);
    ReadLinesCons(NodeLine(t.ev, prefix, isLast, depth, format), more);
    LinesWithinCons(Visit(depth, t.ev, |t.kids| > 0), VisitsAll(t.kids, depth + 1), depth, format);
  }

  lemma {:induction false} PrintKidsShowTheVisits(
      ts: seq<Tree>, margin: string, depth: int, maxDepth: int, format: Ev -> string)
    requires depth >= 1 && IsMargin(margin, depth) && Within(depth, maxDepth) && Bracketed(format)
    ensures ReadLines(PrintKids(ts, margin, depth, maxDepth, format))
            == LinesWithin(VisitsAll(ts, depth), maxDepth, format)
    decreases ts
  {
    if ts != [] {
      PrintShowsTheVisits(ts[0], margin, |ts| == 1, depth, maxDepth, format);
      PrintKidsShowTheVisits(ts[1..], margin, depth, maxDepth, format);
      ReadLinesConcat(PrintTree(ts[0], margin, |ts| == 1, depth, maxDepth, format),
                      PrintKids(ts[1..], margin, depth, maxDepth, format));
      LinesWithinConcat(Visits(ts[0], depth), VisitsAll(ts[1..], depth), maxDepth, format);
    }
  }

  // --------------------------------------------------------------- reading back

  /** A tree of formatted events. */
  datatype Outline = Outline(text: string, kids: seq<Outline>)

  function Formatted(t: Tree, format: Ev -> string): Outline
    decreases t
  {
    Outline(format(t.ev), FormattedAll(t.kids, format))
  }

  function FormattedAll(ts: seq<Tree>, format: Ev -> string): seq<Outline>
    decreases ts
  {
    if ts == [] then [] else [Formatted(ts[0], format)] + FormattedAll(ts[1..], format)
  }

  /** Reads the subtrees that start at `depth` off the front of the lines; the rest is left over. */
  function Regrow(lines: seq<Line>, depth: int): (r: (seq<Outline>, seq<Line>))
    ensures |r.1| <= |lines|
    decreases |lines|
  {
    if lines == [] || lines[0].depth != depth then ([], lines)
    else
      var kids := Regrow(lines[1..], depth + 1);
      var siblings := Regrow(kids.1, depth);
      ([Outline(lines[0].text, kids.0)] + siblings.0, siblings.1)
  }

  /** All the lines of a forest. */
  function Drawn(ts: seq<Tree>, depth: int, format: Ev -> string): seq<Line> {
    LinesWithin(VisitsAll(ts, depth), 0, format)
  }

  lemma DrawnSplits(ts: seq<Tree>, depth: int, format: Ev -> string)
    requires ts != []
    ensures Drawn(ts, depth, format)
            == [Line(depth, format(ts[0].ev))] + (Drawn(ts[0].kids, depth + 1, format) + Drawn(ts[1..], depth, format))
  {
    DrawnNode(ts[0], depth, format);
    LinesWithinConcat(Visits(ts[0], depth), VisitsAll(ts[1..], depth), 0, format);
    hide LinesWithin;
    var first, below := Line(depth, format(ts[0].ev)), Drawn(ts[0].kids, depth + 1, format);
    assert ([first] + below) + Drawn(ts[1..], depth, format) == [first] + (below + Drawn(ts[1..], depth, format));
  }

  lemma DrawnNode(t: Tree, depth: int, format: Ev -> string)
    ensures LinesWithin(Visits(t, depth), 0, format) == [Line(depth, format(t.ev))] + Drawn(t.kids, depth + 1, format)
  {
    LinesWithinCons(Visit(depth, t.ev, |t.kids| > 0), VisitsAll(t.kids, depth + 1), 0, format);
  }

  lemma {:induction false} RegrowForest(ts: seq<Tree>, depth: int, rest: seq<Line>, format: Ev -> string)
    requires rest == [] || rest[0].depth < depth
    ensures Regrow(Drawn(ts, depth, format) + rest, depth) == (FormattedAll(ts, format), rest)
    decreases ts
  {
    if ts == [] {
      assert Drawn(ts, depth, format) == [];
      assert [] + rest == rest;
    } else {
      hide Drawn, Regrow;
      var first, below := Line(depth, format(ts[0].ev)), Drawn(ts[0].kids, depth + 1, format);
      var after := Drawn(ts[1..], depth, format) + rest;
      DrawnSplits(ts, depth, format);
      BesideIsShallow(ts[1..], depth, rest, format);
      RegrowForest(ts[0].kids, depth + 1, after, format);
      RegrowForest(ts[1..], depth, rest, format);
      RegrowStep(first, below, after, depth);
      Regroup(first, below, Drawn(ts[1..], depth, format), rest);
    }
  }

  lemma Regroup(first: Line, a: seq<Line>, b: seq<Line>, c: seq<Line>)
    ensures ([first] + (a + b)) + c == [first] + (a + (b + c))
  {
  }

  lemma RegrowStep(first: Line, below: seq<Line>, after: seq<Line>, depth: int)
    requires first.depth == depth && Regrow(below + after, depth + 1).1 == after
    ensures Regrow([first] + (below + after), depth)
            == ([Outline(first.text, Regrow(below + after, depth + 1).0)] + Regrow(after, depth).0,
                Regrow(after, depth).1)
  {
    assert ([first] + (below + after))[1..] == below + after;
  }

  lemma BesideIsShallow(ts: seq<Tree>, depth: int, rest: seq<Line>, format: Ev -> string)
    requires rest == [] || rest[0].depth < depth
    ensures var lines := Drawn(ts, depth, format) + rest;
            lines == [] || lines[0].depth < depth + 1
  {
    if ts != [] {
      DrawnSplits(ts, depth, format);
    }
  }

  lemma SingleTree(t: Tree, format: Ev -> string)
    ensures VisitsAll([t], 1) == Visits(t, 1) && FormattedAll([t], format) == [Formatted(t, format)]
  {
    assert [t][1..] == [];
    assert Visits(t, 1) + [] == Visits(t, 1);
  }

  /** Regrowing a tree from the indentation of its printed lines inverts the printing. */
  lemma PrintingIsUndone(t: Tree, format: Ev -> string)
    requires Bracketed(format)
    ensures Regrow(ReadLines(PrintTree(t, "", true, 1, 0, format)), 1) == ([Formatted(t, format)], [])
  {
    var vs := Visits(t, 1);
    PrintShowsTheVisits(t, "", true, 1, 0, format);
    SingleTree(t, format);
    RegrowForest([t], 1, [], format);
    assert LinesWithin(vs, 0, format) + [] == LinesWithin(vs, 0, format);
  }

  /** Without a depth limit the lines printed determine the tree. */
  lemma PrintingIsInjective(t: Tree, u: Tree, format: Ev -> string)
    requires Bracketed(format)
    requires PrintTree(t, "", true, 1, 0, format) == PrintTree(u, "", true, 1, 0, format)
    ensures Formatted(t, format) == Formatted(u, format)
  {
    PrintingIsUndone(t, format);
    PrintingIsUndone(u, format);
    assert [Formatted(t, format)][0] == [Formatted(u, format)][0];
  }
}
