/**
 The log of one task as the browser follows it: the server reads a file from a byte offset,
 the browser appends what it gets and keeps the last characters. The file is a sequence of
 blocks, one per write; bytes and characters need not be one to one.
 */
module TaskLog {
  const CAP: nat := 200000

  // One write to the file: never empty, since a missing newline is added.
  datatype RawBlock = Block(text: string, bytes: nat)
  type Block = b: RawBlock | b.text != "" && b.bytes > 0 witness RawBlock.Block("\n", 1)

  type File = seq<Block>

  // What the reader makes of a block when it starts so many bytes into it.
  type Cut = (Block, nat) -> string

  datatype Answer = Answer(content: string, size: nat)

  function Bytes(f: File): nat {
    if f == [] then 0 else f[0].bytes + Bytes(f[1..])
  }

  function Contents(f: File): string {
    if f == [] then "" else f[0].text + Contents(f[1..])
  }

  function ReadFrom(cut: Cut, f: File, offset: nat): string {
    if f == [] || offset == 0 then Contents(f)
    else if offset >= f[0].bytes then ReadFrom(cut, f[1..], offset - f[0].bytes)
    else cut(f[0], offset) + Contents(f[1..])
  }

  // The size is taken first, the content is read afterwards. A missing file counts as empty.
  function ReadLog(cut: Cut, sized: File, read: File, offset: nat): Answer {
    Answer(ReadFrom(cut, read, offset), Bytes(sized))
  }

  // ---------- The browser's side ----------

  datatype View = View(size: nat, log: string, truncated: bool)

  const EMPTY_VIEW := View(0, "", false)

  // `slice(-CAP)`
  function Tail(s: string): (r: string)
    ensures |r| == if |s| <= CAP then |s| else CAP
  {
    if |s| <= CAP then s else s[|s| - CAP..]
  }

  // The last characters, up to the cap.
  lemma TailIsTheEnd(s: string)
    ensures |Tail(s)| <= 200000 && (|s| <= 200000 ==> Tail(s) == s)
    ensures exists cut: string :: s == cut + Tail(s) && (cut == "" || |Tail(s)| == 200000)
  {
    var n := |s| - |Tail(s)|;
    assert s == s[..n] + Tail(s);
  }

  // One refresh: `offset` is where it asked from, `again` the answer to asking from the start.
  function Refreshed(v: View, offset: nat, first: Answer, again: Answer): View {
    if offset > first.size then View(again.size, Tail(again.content), |again.content| > CAP)
    else if first.content == "" then v.(size := first.size)
    else
      var next := v.log + first.content;
      View(first.size, Tail(next), |Tail(next)| < |next|)
  }

  class LogView {
    var logSize: nat
    var log: string
    var truncated: bool

    constructor ()
      ensures Current() == EMPTY_VIEW
    {
      logSize, log, truncated := 0, "", false;
    }

    ghost function Current(): View
      reads this
    {
      View(logSize, log, truncated)
    }

    // Another task is shown.
    method Reset()
      modifies this
      ensures Current() == EMPTY_VIEW
    {
      log, truncated, logSize := "", false, 0;
    }

    method Refresh(offset: nat, first: Answer, again: Answer)
      modifies this
      ensures Current() == Refreshed(old(Current()), offset, first, again)
    {
      if offset > first.size {
        logSize := 0;
        var nextLog := Tail(again.content);
        logSize := again.size;
        truncated := |again.content| > CAP;
        log := nextLog;
        return;
      }
      logSize := first.size;
      if first.content == "" {
        return;
      }
      var nextLog := log + first.content;
      var croppedLog := Tail(nextLog);
      truncated := |croppedLog| < |nextLog|;
      log := croppedLog;
    }
  }

  // ---------- What the view shows ----------

  // The end of this text, and whether it is only the end.
  ghost predicate Shows(v: View, text: string) {
    v.log == Tail(text) && (v.truncated <==> |text| > CAP)
  }

  // The view shows this file and will go on behind it.
  ghost predicate Agrees(v: View, f: File) {
    Shows(v, Contents(f)) && v.size == Bytes(f)
  }

  lemma TailOfTail(a: string, b: string)
    ensures Tail(Tail(a) + b) == Tail(a + b)
  {
  }

  lemma ShowsMore(v: View, text: string, first: Answer, offset: nat, again: Answer)
    requires Shows(v, text) && offset <= first.size
    ensures Shows(Refreshed(v, offset, first, again), text + first.content)
    ensures Refreshed(v, offset, first, again).size == first.size
  {
    TailOfTail(text, first.content);
    assert first.content == "" ==> text + first.content == text;
  }

  lemma {:induction false} ContentsOfTwo(f: File, g: File)
    ensures Contents(f + g) == Contents(f) + Contents(g) && Bytes(f + g) == Bytes(f) + Bytes(g)
  {
    if f == [] {
      assert f + g == g;
    } else {
      assert (f + g)[1..] == f[1..] + g;
      ContentsOfTwo(f[1..], g);
      assert f[0].text + (Contents(f[1..]) + Contents(g)) == f[0].text + Contents(f[1..]) + Contents(g);
    }
  }

  // Reading from the end of a prefix gives exactly what was written after it.
  lemma {:induction false} ReadBehind(cut: Cut, f: File, g: File)
    ensures ReadFrom(cut, f + g, Bytes(f)) == Contents(g)
  {
    if f == [] {
      assert f + g == g;
    } else {
      assert (f + g)[1..] == f[1..] + g;
      ReadBehind(cut, f[1..], g);
    }
  }

  lemma NothingIsEmpty(g: File)
    ensures Contents(g) == "" <==> g == []
    ensures Bytes(g) == 0 <==> g == []
  {
  }

  // The log has grown: one refresh brings the view up to date.
  lemma GrowthIsFollowed(cut: Cut, v: View, f: File, g: File, again: Answer)
    requires Agrees(v, f)
    ensures Agrees(Refreshed(v, v.size, ReadLog(cut, f + g, f + g, v.size), again), f + g)
  {
    ContentsOfTwo(f, g);
    ReadBehind(cut, f, g);
    ShowsMore(v, Contents(f), ReadLog(cut, f + g, f + g, v.size), v.size, again);
  }

  // The log has become shorter: one refresh starts over, whatever was shown before.
  lemma ShrinkIsNoticed(cut: Cut, v: View, f: File)
    requires Bytes(f) < v.size
    ensures Agrees(Refreshed(v, v.size, ReadLog(cut, f, f, v.size), ReadLog(cut, f, f, 0)), f)
  {
  }

  // If the log grows between taking its size and reading it, the new text is shown but not
  // counted: the view agrees with the file exactly when nothing was written in between.
  lemma RaceDisagrees(cut: Cut, v: View, f: File, g: File, h: File, again: Answer)
    requires Agrees(v, f)
    ensures
      var v' := Refreshed(v, v.size, ReadLog(cut, f + g, f + (g + h), v.size), again);
      && Shows(v', Contents(f + (g + h)))
      && (Agrees(v', f + (g + h)) <==> h == [])
  {
    var more := g + h;
    ContentsOfTwo(f, g);
    ContentsOfTwo(g, h);
    ContentsOfTwo(f, more);
    ReadBehind(cut, f, more);
    ShowsMore(v, Contents(f), ReadLog(cut, f + g, f + more, v.size), v.size, again);
    NothingIsEmpty(h);
  }

  // The refresh after such a race shows what was written in between a second time.
  lemma RaceRepeats(cut: Cut, v: View, f: File, h: File, k: File, again: Answer)
    requires Shows(v, Contents(f + h)) && v.size == Bytes(f)
    ensures
      var file := f + (h + k);
      Shows(Refreshed(v, v.size, ReadLog(cut, file, file, v.size), again), Contents(f + h) + Contents(h + k))
  {
    var rest := h + k;
    ContentsOfTwo(f, rest);
    ReadBehind(cut, f, rest);
    ShowsMore(v, Contents(f + h), ReadLog(cut, f + rest, f + rest, v.size), v.size, again);
  }

  // Two refreshes that overlap ask from the same offset and append the same text twice.
  lemma OverlapRepeats(cut: Cut, v: View, f: File, g: File, again: Answer)
    requires Agrees(v, f)
    ensures
      var answer := ReadLog(cut, f + g, f + g, v.size);
      var twice := Refreshed(Refreshed(v, v.size, answer, again), v.size, answer, again);
      Shows(twice, Contents(f + g) + Contents(g)) && twice.size == Bytes(f + g)
  {
    var answer := ReadLog(cut, f + g, f + g, v.size);
    GrowthIsFollowed(cut, v, f, g, again);
    ContentsOfTwo(f, g);
    ReadBehind(cut, f, g);
    ShowsMore(Refreshed(v, v.size, answer, again), Contents(f + g), answer, v.size, again);
  }

  // ---------- Whole runs ----------

  // The file is replaced by another content, or the view is refreshed.
  datatype Op = Write(file: File) | Refresh

  datatype System = System(file: File, seen: File, view: View)

  // What was seen is still there, or the file is too short for it: a log that was cut does not
  // grow back past the old size between two refreshes.
  ghost predicate Recognisable(seen: File, file: File) {
    seen <= file || Bytes(file) < Bytes(seen)
  }

  function After(cut: Cut, start: File, ops: seq<Op>): System {
    if ops == [] then System(start, [], EMPTY_VIEW)
    else
      var s := After(cut, start, ops[..|ops| - 1]);
      match ops[|ops| - 1]
      case Write(file) => s.(file := file)
      case Refresh =>
        var v := Refreshed(s.view, s.view.size, ReadLog(cut, s.file, s.file, s.view.size), ReadLog(cut, s.file, s.file, 0));
        System(s.file, s.file, v)
  }

  ghost predicate AllRecognisable(cut: Cut, start: File, ops: seq<Op>) {
    ops == [] ||
    (AllRecognisable(cut, start, ops[..|ops| - 1])
     && (ops[|ops| - 1].Write? ==> Recognisable(After(cut, start, ops[..|ops| - 1]).seen, ops[|ops| - 1].file)))
  }

  // Over every run of sequential refreshes of a growing or cut log, the view shows the last
  // 200000 characters of the file as it was at the last refresh, and says so exactly when
  // there were more.
  lemma {:induction false} ViewShowsTheTail(cut: Cut, start: File, ops: seq<Op>)
    requires AllRecognisable(cut, start, ops)
    ensures
      var s := After(cut, start, ops);
      Agrees(s.view, s.seen) && Recognisable(s.seen, s.file)
    ensures ops != [] && ops[|ops| - 1].Refresh? ==> After(cut, start, ops).seen == After(cut, start, ops).file
  {
    if ops != [] {
      ViewShowsTheTail(cut, start, ops[..|ops| - 1]);
      var s := After(cut, start, ops[..|ops| - 1]);
      if ops[|ops| - 1].Refresh? {
        if s.seen <= s.file {
          GrowthIsFollowed(cut, s.view, s.seen, s.file[|s.seen|..], ReadLog(cut, s.file, s.file, 0));
          assert s.seen + s.file[|s.seen|..] == s.file;
        } else {
          ShrinkIsNoticed(cut, s.view, s.file);
        }
      }
    }
  }
}
