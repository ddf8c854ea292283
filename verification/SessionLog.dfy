/**
 harness/job.js `sessionLog`: every line of a session that fits, with what may be shortened shortened first; and the
 budget its pictures come out of (`imageAttachments`, `shotWithBytes`).
 */
module SessionLog {
  import opened Prelude

  /** A picture of a line: where its bytes are, if anywhere; `inline` when the address is the picture itself. */
  datatype Picture = Picture(url: Option<string>, inline: bool)

  datatype Input = Input(content: string, oldString: string, newString: string, rest: string)

  datatype Kind =
    | Tool(id: string, input: Option<Input>)
    | Progress(id: string, chunk: string)
    | ToolResult(id: string, output: string)
    | Other(text: string)

  datatype Line = Line(kind: Kind, pictures: seq<Picture>)

  const MAX_LOG := 240000

  /** The length of a line's JSON and its newline. */
  type Size = Line -> nat

  const NOTE := Line(Other("The rest of this session was too long to keep."), [])

  // ---------------------------------------------------------------- the pieces

  /** `cutTo` */
  function CutTo(s: string, n: nat): (r: string)
    requires n > 0
    ensures if |s| <= n then r == s else |r| == n && r[..n - 1] == s[..n - 1] && r[n - 1] == '…'
  {
    if |s| > n then s[..n - 1] + ['…'] else s
  }

  function Total(size: Size, lines: seq<Line>): nat {
    if lines == [] then 0 else Total(size, lines[..|lines| - 1]) + size(lines[|lines| - 1])
  }

  function StripPicture(p: Picture): Picture { if p.url.Some? && p.inline then p.(url := None) else p }

  function Strip(l: Line): Line {
    l.(pictures := seq(|l.pictures|, i requires 0 <= i < |l.pictures| => StripPicture(l.pictures[i])))
  }

  function Cut(l: Line, n: nat): Line
    requires n > 0
  {
    match l.kind
    case ToolResult(id, output) => l.(kind := ToolResult(id, CutTo(output, n)))
    case Progress(id, chunk) => l.(kind := Progress(id, CutTo(chunk, n)))
    case Tool(id, input) =>
      if input.Some? && (input.value.content != "" || input.value.oldString != "") then
        var i := input.value;
        l.(kind := Tool(id, Some(Input(CutTo(i.content, n), CutTo(i.oldString, n), CutTo(i.newString, n), i.rest))))
      else l
    case Other(_) => l
  }

  function Map(f: Line -> Line, lines: seq<Line>): (r: seq<Line>)
    ensures |r| == |lines| && forall i :: 0 <= i < |lines| ==> r[i] == f(lines[i])
  {
    seq(|lines|, i requires 0 <= i < |lines| => f(lines[i]))
  }

  function CutAll(lines: seq<Line>, n: nat): (r: seq<Line>)
    requires n > 0
    ensures |r| == |lines| && forall i :: 0 <= i < |lines| ==> r[i] == Cut(lines[i], n)
  {
    seq(|lines|, i requires 0 <= i < |lines| => Cut(lines[i], n))
  }

  /** The steps whose result is there. */
  function Ended(lines: seq<Line>): set<string> { set l | l in lines && l.kind.ToolResult? :: l.kind.id }

  /** Progress whose step's result is there goes. */
  function DropEarly(lines: seq<Line>, ended: set<string>): seq<Line> {
    if lines == [] then []
    else
      var last := lines[|lines| - 1];
      DropEarly(lines[..|lines| - 1], ended) + if last.kind.Progress? && last.kind.id in ended then [] else [last]
  }

  /** The lines before the one that does not fit any more. */
  function Fitting(size: Size, lines: seq<Line>, room: int): seq<Line> {
    if lines == [] || size(lines[0]) > room then [] else [lines[0]] + Fitting(size, lines[1..], room - size(lines[0]))
  }

  // ---------------------------------------------------------------- the whole

  function Shrunk(size: Size, lines: seq<Line>): seq<Line> {
    if Total(size, lines) <= MAX_LOG then lines
    else if Total(size, CutAll(lines, 1500)) <= MAX_LOG then CutAll(lines, 1500)
    else if Total(size, CutAll(lines, 600)) <= MAX_LOG then CutAll(lines, 600)
    else Fitting(size, CutAll(lines, 200), MAX_LOG) + [NOTE]
  }

  /** What `sessionLog` keeps, each cut made once from the start. */
  function Log(size: Size, lines: seq<Line>): seq<Line> {
    if Total(size, lines) <= MAX_LOG then lines
    else
      var bare := Map(Strip, lines);
      if Total(size, bare) <= MAX_LOG then bare else Shrunk(size, DropEarly(bare, Ended(bare)))
  }

  method TotalOf(size: Size, lines: seq<Line>) returns (total: nat)
    ensures total == Total(size, lines)
  {
    total := 0;
    for i := 0 to |lines|
      invariant total == Total(size, lines[..i])
    {
      assert lines[..i + 1][..i] == lines[..i];
      total := total + size(lines[i]);
    }
    assert lines[..|lines|] == lines;
  }

  /** `sessionLog` */
  method Keep(size: Size, lines: seq<Line>) returns (list: seq<Line>)
    ensures list == Log(size, lines)
  {
    list := lines;
    var total := TotalOf(size, list);
    if total <= MAX_LOG { return; }
    list := Map(Strip, list);
    total := TotalOf(size, list);
    if total <= MAX_LOG { return; }
    list := Shrink(size, DropEarly(list, Ended(list)));
  }

  /** Shorter and shorter, until it fits or what does not fit is left off. */
  method Shrink(size: Size, whole: seq<Line>) returns (list: seq<Line>)
    ensures list == Shrunk(size, whole)
  {
    list := whole;
    var cuts := [1500, 600, 200];
    for k := 0 to 3
      invariant list == if k == 0 then whole else CutAll(whole, cuts[k - 1])
      invariant k >= 1 ==> Total(size, whole) > MAX_LOG
      invariant k >= 2 ==> Total(size, CutAll(whole, 1500)) > MAX_LOG
      invariant k >= 3 ==> Total(size, CutAll(whole, 600)) > MAX_LOG
    {
      var total := TotalOf(size, list);
      if total <= MAX_LOG { return; }
      if k > 0 { CutAllTwice(whole, cuts[k - 1], cuts[k]); }
      list := CutAll(list, cuts[k]);
    }
    list := KeepFitting(size, list);
    list := list + [NOTE];
  }

  method KeepFitting(size: Size, list: seq<Line>) returns (kept: seq<Line>)
    ensures kept == Fitting(size, list, MAX_LOG)
  {
    kept := [];
    var total := 0;
    for i := 0 to |list|
      invariant kept == list[..i] && kept + Fitting(size, list[i..], MAX_LOG - total) == Fitting(size, list, MAX_LOG)
    {
      total := total + size(list[i]);
      assert list[i..][1..] == list[i + 1..];
      if total > MAX_LOG { return; }
      kept := kept + [list[i]];
      assert kept + Fitting(size, list[i + 1..], MAX_LOG - total)
          == list[..i] + ([list[i]] + Fitting(size, list[i + 1..], MAX_LOG - total));
    }
  }

  // ---------------------------------------------------------------- cutting

  /** Cutting twice is cutting to the shorter length. */
  lemma CutToTwice(s: string, n: nat, m: nat)
    requires 0 < m <= n
    ensures CutTo(CutTo(s, n), m) == CutTo(s, m)
  {
    if |s| > n && m < n { assert (s[..n - 1] + ['…'])[..m - 1] == s[..m - 1]; }
  }

  lemma CutTwice(l: Line, n: nat, m: nat)
    requires 0 < m <= n
    ensures Cut(Cut(l, n), m) == Cut(l, m)
  {
    match l.kind
    case ToolResult(_, output) => CutToTwice(output, n, m);
    case Progress(_, chunk) => CutToTwice(chunk, n, m);
    case Tool(_, input) =>
      if input.Some? {
        CutToTwice(input.value.content, n, m);
        CutToTwice(input.value.oldString, n, m);
        CutToTwice(input.value.newString, n, m);
      }
    case Other(_) =>
  }

  /** Cutting all lines to 1500, 600 and 200 in turn is cutting once to the smallest. */
  lemma CutAllTwice(lines: seq<Line>, n: nat, m: nat)
    requires 0 < m <= n
    ensures CutAll(CutAll(lines, n), m) == CutAll(lines, m)
  {
    forall i | 0 <= i < |lines| ensures CutAll(CutAll(lines, n), m)[i] == CutAll(lines, m)[i] {
      CutTwice(lines[i], n, m);
    }
  }

  // ---------------------------------------------------------------- what a session keeps

  /** A text is as it was, or its beginning with a mark. */
  ghost predicate BeginsAs(b: string, a: string) { b == a || (|b| < |a| && |b| > 0 && b == a[..|b| - 1] + ['…']) }

  predicate SamePicture(b: Picture, a: Picture) { b == a || (a.inline && b == a.(url := None)) }

  /** Only outputs, progress, edit inputs and the bytes of pictures are ever shortened. */
  ghost predicate Shorter(b: Line, a: Line) {
    && |b.pictures| == |a.pictures| && (forall i :: 0 <= i < |a.pictures| ==> SamePicture(b.pictures[i], a.pictures[i]))
    && match a.kind
       case Other(_) => b.kind == a.kind
       case ToolResult(id, output) => b.kind.ToolResult? && b.kind.id == id && BeginsAs(b.kind.output, output)
       case Progress(id, chunk) => b.kind.Progress? && b.kind.id == id && BeginsAs(b.kind.chunk, chunk)
       case Tool(id, input) =>
         && b.kind.Tool? && b.kind.id == id && (b.kind.input.Some? <==> input.Some?)
         && (input.Some? ==> InputShorter(b.kind.input.value, input.value))
  }

  ghost predicate InputShorter(b: Input, a: Input) {
    b.rest == a.rest && BeginsAs(b.content, a.content) && BeginsAs(b.oldString, a.oldString)
        && BeginsAs(b.newString, a.newString)
  }

  /** Lines in the same order, each perhaps shorter, without some progress whose step's result is there. */
  ghost predicate Follows(b: seq<Line>, a: seq<Line>, ended: set<string>) {
    if a == [] then b == []
    else
      var x := a[|a| - 1];
      || (b != [] && Shorter(b[|b| - 1], x) && Follows(b[..|b| - 1], a[..|a| - 1], ended))
      || (x.kind.Progress? && x.kind.id in ended && Follows(b, a[..|a| - 1], ended))
  }

  lemma CutShorter(l: Line, n: nat)
    requires n > 0
    ensures Shorter(Cut(l, n), l)
  {
  }

  predicate InputCut(i: Input, n: nat) {
    (i.content != "" || i.oldString != "") ==> |i.content| <= n && |i.oldString| <= n && |i.newString| <= n
  }

  /**
   A cut leaves no part that may be shortened longer than it says: an output, some progress and, of an input that writes
   or replaces text, that text.
   */
  lemma CutShort(l: Line, n: nat, r: Line)
    requires n > 0 && r == Cut(l, n)
    ensures r.kind.ToolResult? ==> |r.kind.output| <= n
    ensures r.kind.Progress? ==> |r.kind.chunk| <= n
    ensures r.kind.Tool? && r.kind.input.Some? ==> InputCut(r.kind.input.value, n)
  {
  }

  lemma StripShorter(l: Line)
    ensures Shorter(Strip(l), l)
  {
  }

  lemma CutStripShorter(l: Line, n: nat)
    requires n > 0
    ensures Shorter(Cut(Strip(l), n), l)
  {
    StripShorter(l);
    CutShorter(Strip(l), n);
  }

  lemma {:induction false} MapFollows(f: Line -> Line, lines: seq<Line>, ended: set<string>)
    requires forall l :: Shorter(f(l), l)
    ensures Follows(Map(f, lines), lines, ended)
  {
    if lines != [] {
      var n := |lines| - 1;
      MapFollows(f, lines[..n], ended);
      assert Map(f, lines)[..n] == Map(f, lines[..n]);
    }
  }

  lemma {:induction false} DropFollows(f: Line -> Line, g: Line -> Line, lines: seq<Line>, ended: set<string>)
    requires (forall l :: Shorter(f(l), l)) && forall l :: Shorter(g(f(l)), l)
    ensures Follows(Map(g, DropEarly(Map(f, lines), ended)), lines, ended)
  {
    if lines != [] {
      var n := |lines| - 1;
      DropFollows(f, g, lines[..n], ended);
      assert Map(f, lines)[..n] == Map(f, lines[..n]);
      var d := DropEarly(Map(f, lines[..n]), ended);
      var all := DropEarly(Map(f, lines), ended);
      if all != d {
        assert all == d + [f(lines[n])];
        assert Map(g, all)[..|d|] == Map(g, d);
      }
    }
  }

  /** Stripping pictures leaves the results where they are. */
  lemma StripEnded(lines: seq<Line>)
    ensures Ended(Map(Strip, lines)) == Ended(lines)
  {
    var bare := Map(Strip, lines);
    forall id ensures id in Ended(bare) <==> id in Ended(lines) {
      if l :| l in bare && l.kind.ToolResult? && l.kind.id == id {
        var i :| 0 <= i < |lines| && bare[i] == l;
        assert lines[i] in lines && lines[i].kind == l.kind;
      }
      if l :| l in lines && l.kind.ToolResult? && l.kind.id == id {
        var i :| 0 <= i < |lines| && lines[i] == l;
        assert bare[i] in bare && bare[i].kind == l.kind;
      }
    }
  }

  lemma {:induction false} FittingFits(size: Size, lines: seq<Line>, room: nat)
    ensures Fitting(size, lines, room) <= lines && TotalFront(size, Fitting(size, lines, room)) <= room
    ensures TotalFront(size, lines) <= room ==> Fitting(size, lines, room) == lines
    ensures var k := |Fitting(size, lines, room)|;
        k < |lines| ==> TotalFront(size, Fitting(size, lines, room)) + size(lines[k]) > room
  {
    if lines != [] && size(lines[0]) <= room { FittingFits(size, lines[1..], room - size(lines[0])); }
  }

  function TotalFront(size: Size, lines: seq<Line>): nat {
    if lines == [] then 0 else size(lines[0]) + TotalFront(size, lines[1..])
  }

  lemma {:induction false} TotalBothWays(size: Size, lines: seq<Line>)
    ensures TotalFront(size, lines) == Total(size, lines)
  {
    if lines != [] {
      var n := |lines| - 1;
      TotalBothWays(size, lines[..n]);
      FrontSnoc(size, lines[..n], lines[n]);
      assert lines == lines[..n] + [lines[n]];
    }
  }

  lemma {:induction false} FrontSnoc(size: Size, lines: seq<Line>, l: Line)
    ensures TotalFront(size, lines + [l]) == TotalFront(size, lines) + size(l)
  {
    if lines != [] {
      FrontSnoc(size, lines[1..], l);
      assert (lines + [l])[1..] == lines[1..] + [l];
    }
  }

  /** What is kept is within the limit, but for the closing note. */
  lemma WithinLimit(size: Size, lines: seq<Line>)
    ensures Total(size, Log(size, lines)) <= MAX_LOG + size(NOTE)
    ensures Total(size, lines) <= MAX_LOG ==> Log(size, lines) == lines
  {
    var bare := Map(Strip, lines);
    if Total(size, lines) > MAX_LOG && Total(size, bare) > MAX_LOG { ShrunkWithin(size, DropEarly(bare, Ended(bare))); }
  }

  lemma ShrunkWithin(size: Size, lines: seq<Line>)
    ensures Total(size, Shrunk(size, lines)) <= MAX_LOG + size(NOTE)
  {
    NotedWithin(size, CutAll(lines, 200), Fitting(size, CutAll(lines, 200), MAX_LOG));
  }

  lemma NotedWithin(size: Size, full: seq<Line>, kept: seq<Line>)
    requires kept == Fitting(size, full, MAX_LOG)
    ensures Total(size, kept + [NOTE]) <= MAX_LOG + size(NOTE)
  {
    FittingFits(size, full, MAX_LOG);
    TotalBothWays(size, kept);
    assert (kept + [NOTE])[..|kept|] == kept;
  }

  /** Lines that follow the session, or those up to a line and the note. */
  ghost predicate FollowsOrNoted(r: seq<Line>, lines: seq<Line>) {
    || Follows(r, lines, Ended(lines))
    || exists full, k: nat :: Follows(full, lines, Ended(lines)) && k <= |full| && r == full[..k] + [NOTE]
  }

  /**
   What is kept follows the session: the same lines in the same order, only outputs, progress, edit inputs and picture
   bytes shortened, progress left out only where its step's result is there; or that, up to a line, and the note.
   */
  lemma LogFollows(size: Size, lines: seq<Line>)
    ensures FollowsOrNoted(Log(size, lines), lines)
  {
    var bare := Map(Strip, lines);
    if Total(size, lines) <= MAX_LOG {
      forall l: Line ensures Shorter(l, l) { }
      MapFollows(l => l, lines, Ended(lines));
      assert Map(l => l, lines) == lines;
    } else if Total(size, bare) <= MAX_LOG {
      forall l ensures Shorter(Strip(l), l) { StripShorter(l); }
      MapFollows(Strip, lines, Ended(lines));
    } else {
      StripEnded(lines);
      ShrunkFollows(size, lines, DropEarly(bare, Ended(lines)));
    }
  }

  lemma ShrunkFollows(size: Size, lines: seq<Line>, dropped: seq<Line>)
    requires dropped == DropEarly(Map(Strip, lines), Ended(lines))
    ensures FollowsOrNoted(Shrunk(size, dropped), lines)
  {
    if Total(size, dropped) <= MAX_LOG {
      WholeFollows(lines, dropped);
    } else {
      CutFollows(lines, dropped, 1500);
      CutFollows(lines, dropped, 600);
      CutFollows(lines, dropped, 200);
      LastFollows(size, lines, CutAll(dropped, 200));
    }
  }

  lemma WholeFollows(lines: seq<Line>, dropped: seq<Line>)
    requires dropped == DropEarly(Map(Strip, lines), Ended(lines))
    ensures Follows(dropped, lines, Ended(lines))
  {
    forall l ensures Shorter(Strip(l), l) { StripShorter(l); }
    DropFollows(Strip, l => l, lines, Ended(lines));
    assert Map(l => l, dropped) == dropped;
  }

  lemma LastFollows(size: Size, lines: seq<Line>, full: seq<Line>)
    requires Follows(full, lines, Ended(lines))
    ensures FollowsOrNoted(Fitting(size, full, MAX_LOG) + [NOTE], lines)
  {
    FittingFits(size, full, MAX_LOG);
    NotedFollows(lines, full, Fitting(size, full, MAX_LOG));
  }

  lemma NotedFollows(lines: seq<Line>, full: seq<Line>, kept: seq<Line>)
    requires Follows(full, lines, Ended(lines)) && kept <= full
    ensures FollowsOrNoted(kept + [NOTE], lines)
  {
    assert kept == full[..|kept|];
  }

  lemma CutFollows(lines: seq<Line>, dropped: seq<Line>, n: nat)
    requires n > 0 && dropped == DropEarly(Map(Strip, lines), Ended(lines))
    ensures Follows(CutAll(dropped, n), lines, Ended(lines))
  {
    forall l ensures Shorter(Strip(l), l) { StripShorter(l); }
    forall l ensures Shorter(Cut(Strip(l), n), l) { CutStripShorter(l, n); }
    DropFollows(Strip, l => Cut(l, n), lines, Ended(lines));
    assert Map(l => Cut(l, n), dropped) == CutAll(dropped, n);
  }

  /** No line holds the bytes of a picture. */
  ghost predicate NoPictureBytes(lines: seq<Line>) {
    forall i, j ::
        0 <= i < |lines| && 0 <= j < |lines[i].pictures| && lines[i].pictures[j].inline ==>
          lines[i].pictures[j].url.None?
  }

  lemma StripTakes(lines: seq<Line>)
    ensures NoPictureBytes(Map(Strip, lines))
  {
  }

  lemma {:induction false} DropTakes(lines: seq<Line>, ended: set<string>)
    requires NoPictureBytes(lines)
    ensures NoPictureBytes(DropEarly(lines, ended))
  {
    if lines != [] {
      DropTakes(lines[..|lines| - 1], ended);
      PictureSnoc(DropEarly(lines[..|lines| - 1], ended), lines[|lines| - 1], |lines| - 1, lines);
    }
  }

  lemma PictureSnoc(front: seq<Line>, l: Line, n: nat, lines: seq<Line>)
    requires NoPictureBytes(front) && NoPictureBytes(lines) && n < |lines| && l == lines[n]
    ensures NoPictureBytes(front + [l])
  {
  }

  lemma CutKeepsPictures(lines: seq<Line>, n: nat)
    requires n > 0 && NoPictureBytes(lines)
    ensures NoPictureBytes(CutAll(lines, n))
  {
    assert forall i :: 0 <= i < |lines| ==> CutAll(lines, n)[i].pictures == lines[i].pictures;
  }

  lemma FittingTakes(size: Size, lines: seq<Line>)
    requires NoPictureBytes(lines)
    ensures NoPictureBytes(Fitting(size, lines, MAX_LOG) + [NOTE])
  {
    FittingFits(size, lines, MAX_LOG);
    assert NOTE.pictures == [];
  }

  lemma {:induction false} DropsEarly(lines: seq<Line>, ended: set<string>)
    ensures forall l :: l in DropEarly(lines, ended) ==> !(l.kind.Progress? && l.kind.id in ended)
  {
    if lines != [] { DropsEarly(lines[..|lines| - 1], ended); }
  }

  /**
   A session that does not fit is kept without the bytes of its pictures, and is cut no more than it must be: not at all
   when what is lasting of it fits, and to the longest of the lengths with which it does.
   */
  lemma CutAsNeeded(size: Size, lines: seq<Line>, r: seq<Line>)
    requires r == Log(size, lines) && Total(size, lines) > MAX_LOG
    ensures NoPictureBytes(r)
    ensures Total(size, Map(Strip, lines)) <= MAX_LOG ==> r == Map(Strip, lines)
    ensures Total(size, Map(Strip, lines)) > MAX_LOG ==>
      if Total(size, Lasting(lines)) <= MAX_LOG then r == Lasting(lines)
      else if Total(size, CutAll(Lasting(lines), 1500)) <= MAX_LOG then r == CutAll(Lasting(lines), 1500)
      else if Total(size, CutAll(Lasting(lines), 600)) <= MAX_LOG then r == CutAll(Lasting(lines), 600)
      else r != [] && r[|r| - 1] == NOTE && r[..|r| - 1] <= CutAll(Lasting(lines), 200)
    ensures forall l :: l in Lasting(lines) ==> !(l.kind.Progress? && l.kind.id in Ended(lines))
  {
    StripEnded(lines);
    DropsEarly(Map(Strip, lines), Ended(lines));
    FittingFits(size, CutAll(Lasting(lines), 200), MAX_LOG);
    StripTakes(lines);
    DropTakes(Map(Strip, lines), Ended(Map(Strip, lines)));
    CutKeepsPictures(Lasting(lines), 1500);
    CutKeepsPictures(Lasting(lines), 600);
    CutKeepsPictures(Lasting(lines), 200);
    FittingTakes(size, CutAll(Lasting(lines), 200));
  }

  // ---------------------------------------------------------------- what the note means

  /** The lines of a session without inline pictures and without progress whose step's result is there. */
  function Lasting(lines: seq<Line>): seq<Line> { DropEarly(Map(Strip, lines), Ended(Map(Strip, lines))) }

  /** The note says that the rest was too long to keep, and there is no rest: every lasting line is there. */
  predicate NotedWhole(size: Size, lines: seq<Line>) { Log(size, lines) == CutAll(Lasting(lines), 200) + [NOTE] }

  /** Only the last cut of lines made the session fit. */
  predicate LastCutFits(size: Size, lines: seq<Line>) {
    && Total(size, lines) > MAX_LOG && Total(size, CutAll(lines, 1500)) > MAX_LOG
    && Total(size, CutAll(lines, 600)) > MAX_LOG && Total(size, CutAll(lines, 200)) <= MAX_LOG
  }

  lemma ShrunkNotedIff(size: Size, lines: seq<Line>)
    ensures Shrunk(size, lines) == CutAll(lines, 200) + [NOTE] <==> LastCutFits(size, lines)
  {
    var full := CutAll(lines, 200);
    var kept := Fitting(size, full, MAX_LOG);
    KeptAllIff(size, full, kept);
    if kept + [NOTE] == full + [NOTE] { assert kept == (kept + [NOTE])[..|full|] == full; }
  }

  lemma KeptAllIff(size: Size, lines: seq<Line>, kept: seq<Line>)
    requires kept == Fitting(size, lines, MAX_LOG)
    ensures kept == lines <==> Total(size, lines) <= MAX_LOG
  {
    TotalBothWays(size, lines);
    FittingFits(size, lines, MAX_LOG);
  }

  /** The lines that are not progress are in every form of the session. */
  function Steady(lines: seq<Line>): nat {
    if lines == [] then 0 else Steady(lines[..|lines| - 1]) + if lines[|lines| - 1].kind.Progress? then 0 else 1
  }

  lemma SteadySnoc(lines: seq<Line>, l: Line)
    ensures Steady(lines + [l]) == Steady(lines) + if l.kind.Progress? then 0 else 1
  {
    assert (lines + [l])[..|lines|] == lines;
  }

  lemma {:induction false} SteadyAlike(a: seq<Line>, b: seq<Line>)
    requires |a| == |b| && forall i :: 0 <= i < |a| ==> (a[i].kind.Progress? <==> b[i].kind.Progress?)
    ensures Steady(a) == Steady(b)
  {
    if a != [] { SteadyAlike(a[..|a| - 1], b[..|b| - 1]); }
  }

  lemma {:induction false} SteadyDropped(lines: seq<Line>, ended: set<string>)
    ensures Steady(DropEarly(lines, ended)) == Steady(lines)
  {
    if lines != [] {
      var n := |lines| - 1;
      var front := DropEarly(lines[..n], ended);
      SteadyDropped(lines[..n], ended);
      SteadySnoc(front, lines[n]);
      assert front + [] == front;
    }
  }

  /** With the note there is a line more than the session had, progress apart. */
  lemma NotedOneMore(lines: seq<Line>)
    ensures Steady(CutAll(Lasting(lines), 200) + [NOTE]) == Steady(lines) + 1 == Steady(Map(Strip, lines)) + 1
  {
    SteadySnoc(CutAll(Lasting(lines), 200), NOTE);
    SteadyAlike(CutAll(Lasting(lines), 200), Lasting(lines));
    SteadyDropped(Map(Strip, lines), Ended(Map(Strip, lines)));
    SteadyAlike(Map(Strip, lines), lines);
  }

  /**
   The note is written over a session of which no line was left off exactly when neither taking the pictures out, nor
   dropping early progress, nor the first two cuts made it fit, and the last cut did.
   */
  lemma NoteWithoutLossIff(size: Size, lines: seq<Line>)
    ensures NotedWhole(size, lines)
      <==>
      Total(size, lines) > MAX_LOG && Total(size, Map(Strip, lines)) > MAX_LOG && LastCutFits(size, Lasting(lines))
  {
    NotedOneMore(lines);
    ShrunkNotedIff(size, Lasting(lines));
  }

  lemma {:induction false} TotalOfEqual(size: Size, lines: seq<Line>, each: nat)
    requires forall i :: 0 <= i < |lines| ==> size(lines[i]) == each
    ensures Total(size, lines) == |lines| * each
  {
    if lines != [] { TotalOfEqual(size, lines[..|lines| - 1], each); }
  }

  lemma {:induction false} NothingEarly(lines: seq<Line>, ended: set<string>)
    requires forall i :: 0 <= i < |lines| ==> !lines[i].kind.Progress?
    ensures DropEarly(lines, ended) == lines
  {
    if lines != [] { NothingEarly(lines[..|lines| - 1], ended); }
  }

  /** Long results, each of the same length. */
  function Results(count: nat, length: nat): (r: seq<Line>)
    ensures |r| == count && forall i :: 0 <= i < count ==> r[i] == Line(ToolResult("t", seq(length, _ => 'x')), [])
  {
    seq(count, _ => Line(ToolResult("t", seq(length, _ => 'x')), []))
  }

  function OutputSize(l: Line): nat { if l.kind.ToolResult? then |l.kind.output| + 50 else 100 }

  lemma StripPlain(l: Line)
    requires l.pictures == []
    ensures Strip(l) == l
  {
    assert Strip(l).pictures == [];
  }

  /** So it is for five hundred results of 1600 characters: every one is kept, and the note is written. */
  lemma NotedWholeResults()
    ensures NotedWhole(OutputSize, Results(500, 1600))
  {
    var lines := Results(500, 1600);
    forall i | 0 <= i < |lines| ensures Strip(lines[i]) == lines[i] { StripPlain(lines[i]); }
    assert Map(Strip, lines) == lines;
    NothingEarly(lines, Ended(lines));
    TotalOfEqual(OutputSize, lines, 1650);
    TotalOfEqual(OutputSize, CutAll(lines, 1500), 1550);
    TotalOfEqual(OutputSize, CutAll(lines, 600), 650);
    TotalOfEqual(OutputSize, CutAll(lines, 200), 250);
    NoteWithoutLossIff(OutputSize, lines);
  }

  // ---------------------------------------------------------------- pictures

  const MAX_IMAGE_BYTES := 160 * 1024

  /** A block of a tool's answer: an image of a kind that is shown (or not), with its base64 data. */
  datatype Block = Image(shown: bool, data: string) | OtherBlock

  /** The bytes behind base64 data: `Math.ceil(length * 3 / 4)`. */
  function BytesOf(data: string): nat { (3 * |data| + 3) / 4 }

  /** A picture that may travel when there is room. */
  predicate Travels(b: Block) { b.Image? && b.shown && b.data != "" && BytesOf(b.data) <= MAX_IMAGE_BYTES }

  datatype Taken = Taken(images: seq<string>, left: nat)

  /** The pictures of an answer, each taken when it still fits. */
  function Take(content: seq<Block>, left: nat): Taken {
    if content == [] then Taken([], left)
    else
      var r, b := Take(content[..|content| - 1], left), content[|content| - 1];
      if Travels(b) && BytesOf(b.data) <= r.left then Taken(r.images + [b.data], r.left - BytesOf(b.data)) else r
  }

  function Weight(images: seq<string>): nat {
    if images == [] then 0 else Weight(images[..|images| - 1]) + BytesOf(images[|images| - 1])
  }

  /** What the pictures of a run may take of the result's room. */
  class Budget {
    var left: nat

    constructor (left: nat)
      ensures this.left == left
    {
      this.left := left;
    }
  }

  /**
   `shotWithBytes`: whether the bytes of a screenshot's file travel, if it can be read; without a budget they need only
   be few.
   */
  method ShotWithBytes(file: Option<nat>, budget: Budget?) returns (taken: bool)
    modifies budget
    ensures taken <==>
      file.Some? && 0 < file.value <= MAX_IMAGE_BYTES && (budget == null || file.value <= old(budget.left))
    ensures budget != null ==> budget.left + (if taken then file.value else 0) == old(budget.left)
  {
    if file.None? { return false; }
    var bytes := file.value;
    if bytes == 0 || bytes > MAX_IMAGE_BYTES { return false; }
    if budget != null {
      if budget.left < bytes { return false; }
      budget.left := budget.left - bytes;
    }
    return true;
  }

  /** `imageAttachments`; without a budget no picture travels. */
  method ImageAttachments(content: seq<Block>, budget: Budget?) returns (images: seq<string>)
    modifies budget
    ensures budget == null ==> images == []
    ensures budget != null ==> Taken(images, budget.left) == Take(content, old(budget.left))
  {
    images := [];
    if budget == null { return; }
    for i := 0 to |content|
      invariant Taken(images, budget.left) == Take(content[..i], old(budget.left))
    {
      assert content[..i + 1][..i] == content[..i];
      var b := content[i];
      if Travels(b) && BytesOf(b.data) <= budget.left {
        budget.left := budget.left - BytesOf(b.data);
        images := images + [b.data];
      }
    }
    assert content[..|content|] == content;
  }

  lemma {:induction false} WeightConserved(content: seq<Block>, left: nat)
    ensures Weight(Take(content, left).images) + Take(content, left).left == left
  {
    if content != [] {
      var n := |content| - 1;
      WeightConserved(content[..n], left);
      var r, b := Take(content[..n], left), content[n];
      if Travels(b) { assert (r.images + [b.data])[..|r.images|] == r.images; }
    }
  }

  /** Only pictures that may travel are taken, and one that may is left out only because it did not fit. */
  ghost predicate Fair(content: seq<Block>, t: Taken) {
    && (forall d :: d in t.images ==> 0 < |d| && BytesOf(d) <= MAX_IMAGE_BYTES)
    && (forall b :: b in content && Travels(b) ==> b.data in t.images || BytesOf(b.data) > t.left)
  }

  lemma FairOnce(front: seq<Block>, b: Block, r: Taken, content: seq<Block>, all: Taken)
    requires Fair(front, r) && content == front + [b]
    requires all == if Travels(b) && BytesOf(b.data) <= r.left
        then Taken(r.images + [b.data], r.left - BytesOf(b.data)) else r
    ensures Fair(content, all)
  {
    forall c | c in content && Travels(c) ensures c.data in all.images || BytesOf(c.data) > all.left {
      if c != b { assert c in front; }
    }
  }

  lemma {:induction false} TakeFair(content: seq<Block>, left: nat)
    ensures Fair(content, Take(content, left))
  {
    if content != [] {
      var n := |content| - 1;
      TakeFair(content[..n], left);
      FairOnce(content[..n], content[n], Take(content[..n], left), content, Take(content, left));
    }
  }

  /**
   Bytes taken and budget left are always what there was; a picture is left out only if it may not travel or did not
   fit.
   */
  lemma BudgetConserved(content: seq<Block>, left: nat)
    ensures Weight(Take(content, left).images) + Take(content, left).left == left && Fair(content, Take(content, left))
  {
    WeightConserved(content, left);
    TakeFair(content, left);
  }
}
