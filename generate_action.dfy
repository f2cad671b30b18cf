/**
 * `GenerateMongoIdAction`: insert one fresh ObjectId at the caret, or replace
 * a selection with one ID per selected line (asking first when there are
 * more than ten), as edits of an editor's text, caret and selection.
 */
module GenerateAction {
  import opened Wrappers
  import opened MongoId

  /** The editor state the action reads and writes. */
  class Editor {
    var document: string
    var caret: nat
    /** The selected range `[start, end)`, present only when it is not empty. */
    var selection: Option<(nat, nat)>

    ghost predicate Valid()
      reads this
    {
      caret <= |document| && (selection.Some? ==> selection.value.0 < selection.value.1 <= |document|)
    }

    constructor(document: string, caret: nat, selection: Option<(nat, nat)>)
      requires caret <= |document| && (selection.Some? ==> selection.value.0 < selection.value.1 <= |document|)
      ensures Valid()
      ensures this.document == document && this.caret == caret && this.selection == selection
    {
      this.document := document;
      this.caret := caret;
      this.selection := selection;
    }
  }

  /** How many line terminators (`\r\n`, `\n` or `\r`) `s` contains. */
  function LineBreaks(s: string): nat {
    if s == "" then 0
    else if s[0] == '\r' && |s| >= 2 && s[1] == '\n' then 1 + LineBreaks(s[2..])
    else if s[0] == '\n' || s[0] == '\r' then 1 + LineBreaks(s[1..])
    else LineBreaks(s[1..])
  }

  /** `s.lines().size`: one more line than there are terminators. */
  function LineCount(s: string): (n: nat)
    ensures n >= 1
  {
    LineBreaks(s) + 1
  }

  lemma LineCountExamples()
    ensures LineCount("") == 1 && LineCount("abc") == 1
    ensures LineCount("a\nb") == 2 && LineCount("a\r\nb") == 2 && LineCount("a\rb") == 2
    ensures LineCount("a\n\nb\n") == 4
  {
    assert "abc"[1..] == "bc" && "bc"[1..] == "c" && "c"[1..] == "";
    assert "a\nb"[1..] == "\nb" && "\nb"[1..] == "b" && "b"[1..] == "";
    assert "a\r\nb"[1..] == "\r\nb" && "\r\nb"[2..] == "b";
    assert "a\rb"[1..] == "\rb" && "\rb"[1..] == "b";
    assert "a\n\nb\n"[1..] == "\n\nb\n" && "\n\nb\n"[1..] == "\nb\n" && "\nb\n"[1..] == "b\n";
    assert "b\n"[1..] == "\n" && "\n"[1..] == "";
  }

  /** `ids.joinToString("\n")`. */
  function JoinLines(ids: seq<string>): string {
    if ids == [] then "" else if |ids| == 1 then ids[0] else ids[0] + "\n" + JoinLines(ids[1..])
  }

  /** Joining `n` IDs of 24 characters gives 24 n + (n - 1) characters. */
  lemma {:induction false} JoinLength(ids: seq<string>)
    requires |ids| >= 1
    requires forall k :: 0 <= k < |ids| ==> |ids[k]| == 24
    ensures |JoinLines(ids)| == 25 * |ids| - 1
  {
    if |ids| > 1 {
      JoinLength(ids[1..]);
    }
  }

  /** The IDs `count` calls of `generate` return, from counter value `c0`. */
  function Batch(count: nat, clock: nat -> int, random: nat -> RandomBlock, c0: int): (ids: seq<string>)
    ensures |ids| == count
    ensures forall k :: 0 <= k < count ==> ids[k] == ObjectId(clock(k), random(k), Advance(c0, k + 1))
    ensures forall k :: 0 <= k < count ==> |ids[k]| == 24
  {
    var ids := seq(count, k requires 0 <= k < count => ObjectId(clock(k), random(k), Advance(c0, k + 1)));
    assert forall k :: 0 <= k < count ==> ids[k] == ObjectId(clock(k), random(k), Advance(c0, k + 1));
    ids
  }

  /** `generateSingleId`: insert one ID at the caret and put the caret after it. */
  method GenerateSingleId(editor: Editor, gen: MongoIdGenerator, epochSecond: int, randomBytes: RandomBlock)
    requires editor.Valid() && gen.Valid()
    modifies editor, gen
    ensures editor.Valid() && gen.Valid()
    ensures gen.counter == Advance(old(gen.counter), 1)
    ensures editor.document == old(editor.document)[..old(editor.caret)]
                               + ObjectId(epochSecond, randomBytes, gen.counter)
                               + old(editor.document)[old(editor.caret)..]
    ensures |editor.document| == |old(editor.document)| + 24
    ensures editor.caret == old(editor.caret) + 24
    ensures editor.selection == old(editor.selection)
  {
    var mongoId := gen.Generate(epochSecond, randomBytes);
    var offset := editor.caret;
    editor.document := editor.document[..offset] + mongoId + editor.document[offset..];
    editor.caret := offset + |mongoId|;
  }

  /**
   * `generateMultipleIds`: replace the selection with one ID per selected
   * line, joined by newlines, drop the selection and put the caret after the
   * replacement.  Beyond ten lines the user is asked first; `confirmed` is the
   * answer, and a refusal changes nothing.
   */
  method GenerateMultipleIds(editor: Editor, gen: MongoIdGenerator, confirmed: bool,
                             clock: nat -> int, random: nat -> RandomBlock)
    requires editor.Valid() && gen.Valid() && editor.selection.Some?
    modifies editor, gen
    ensures editor.Valid() && gen.Valid()
    ensures var (start, end) := old(editor.selection.value);
            var n := LineCount(old(editor.document)[start..end]);
            if n > 10 && !confirmed then
              editor.document == old(editor.document) && editor.caret == old(editor.caret)
              && editor.selection == old(editor.selection) && gen.counter == old(gen.counter)
            else
              var replacement := JoinLines(Batch(n, clock, random, old(gen.counter)));
              && editor.document == old(editor.document)[..start] + replacement + old(editor.document)[end..]
              && |replacement| == 25 * n - 1
              && editor.caret == start + |replacement|
              && editor.selection.None?
              && gen.counter == Advance(old(gen.counter), n)
  {
    var (start, end) := editor.selection.value;
    var selectedText := editor.document[start..end];
    var count := LineCount(selectedText);
    if count > 10 && !confirmed {
      return;
    }
    ghost var c0 := gen.counter;
    var ids := gen.GenerateMany(count, clock, random);
    assert ids == Batch(count, clock, random, c0);
    JoinLength(ids);
    var replacement := JoinLines(ids);
    editor.document := editor.document[..start] + replacement + editor.document[end..];
    editor.selection := None;
    editor.caret := start + |replacement|;
  }

  /**
   * `actionPerformed`: nothing without an editor and a project; otherwise a
   * batch for a selection, or a single ID at the caret (from the first clock
   * reading and random block).
   */
  method ActionPerformed(editor: Option<Editor>, hasProject: bool, gen: MongoIdGenerator, confirmed: bool,
                         clock: nat -> int, random: nat -> RandomBlock)
    requires gen.Valid() && (editor.Some? ==> editor.value.Valid())
    modifies gen, if editor.Some? then {editor.value} else {}
    ensures gen.Valid() && (editor.Some? ==> editor.value.Valid())
    ensures editor.None? || !hasProject ==> gen.counter == old(gen.counter)
    ensures editor.Some? && !hasProject ==> editor.value.document == old(editor.value.document)
    ensures editor.Some? && hasProject && old(editor.value.selection).None? ==>
              gen.counter == Advance(old(gen.counter), 1) && editor.value.caret == old(editor.value.caret) + 24
  {
    if editor.None? || !hasProject {
      return;
    }
    var e := editor.value;
    if e.selection.Some? {
      GenerateMultipleIds(e, gen, confirmed, clock, random);
    } else {
      GenerateSingleId(e, gen, clock(0), random(0));
    }
  }

  /** `update`: the action is enabled and visible exactly when there is an editor. */
  function IsEnabledAndVisible(editor: Option<Editor>): (r: bool)
    ensures r <==> editor.Some?
  {
    editor.Some?
  }
}
