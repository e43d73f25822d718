/**
 The plain-text rendering of a video script that the "Copy Script" button
 puts on the clipboard (components/VideoScriptDisplay.tsx): a header, a rule,
 then one block per shot in order.
 */
module ScriptFormat {
  import opened Types

  /** A line of forty dashes. */
  const Rule: string := "----------------------------------------\n"

  function Header(script: VideoScript): string
  {
    "VIDEO SCRIPT: " + script.conceptName + "\n" + "FINAL CTA: " + script.cta + "\n\n" + Rule
  }

  function ShotBlock(shot: VideoShot): string
  {
    "\n[" + shot.timestamp + "]\n"
    + "Camera: " + shot.camera + "\n"
    + "Audio: " + shot.audio + "\n"
    + "Narration: " + shot.narration + "\n"
    + "Graphics: " + shot.graphics + "\n"
  }

  /** The concatenation of `parts`, in order. */
  function Join(parts: seq<string>): string
  {
    if |parts| == 0 then "" else Join(parts[..|parts| - 1]) + parts[|parts| - 1]
  }

  lemma {:induction false} JoinAppend(xs: seq<string>, ys: seq<string>)
    ensures Join(xs + ys) == Join(xs) + Join(ys)
    decreases |ys|
  {
    if |ys| == 0 {
      assert xs + ys == xs;
    } else {
      var init := ys[..|ys| - 1];
      assert (xs + ys)[..|xs + ys| - 1] == xs + init;
      JoinAppend(xs, init);
    }
  }

  /** One block per shot, in input order. */
  function Blocks(shots: seq<VideoShot>): (r: seq<string>)
    ensures |r| == |shots|
    ensures forall i :: 0 <= i < |shots| ==> r[i] == ShotBlock(shots[i])
  {
    seq(|shots|, i requires 0 <= i < |shots| => ShotBlock(shots[i]))
  }

  /** The blocks of `shots`, first shot first. */
  function ShotBlocks(shots: seq<VideoShot>): string
  {
    Join(Blocks(shots))
  }

  /** The reference rendering: the header followed by every shot's block. */
  function FormatScript(script: VideoScript): string
  {
    Header(script) + ShotBlocks(script.shots)
  }

  /** formatScriptForCopy: appends one block per shot, as the source's forEach does. */
  method FormatScriptForCopy(script: VideoScript) returns (text: string)
    ensures text == FormatScript(script)
    ensures Header(script) <= text
  {
    text := "VIDEO SCRIPT: " + script.conceptName + "\n";
    text := text + "FINAL CTA: " + script.cta + "\n\n";
    text := text + Rule;
    assert text == Header(script);
    assert ShotBlocks(script.shots[..0]) == "" by {
      assert Blocks(script.shots[..0]) == [];
    }
    var i := 0;
    while i < |script.shots|
      invariant 0 <= i <= |script.shots|
      invariant text == Header(script) + ShotBlocks(script.shots[..i])
    {
      text := AppendShot(text, script.shots[i]);
      ShotBlocksSnoc(script.shots[..i], script.shots[i]);
      PrefixGrows(script.shots, i);
      i := i + 1;
    }
    assert script.shots[..i] == script.shots;
  }

  /** The prefix of length i + 1 is the prefix of length i and the i-th shot. */
  lemma PrefixGrows(shots: seq<VideoShot>, i: nat)
    requires i < |shots|
    ensures shots[..i + 1] == shots[..i] + [shots[i]]
  {
  }

  /** The body of the forEach: the five lines of one shot, appended one by one. */
  method AppendShot(text: string, shot: VideoShot) returns (r: string)
    ensures r == text + ShotBlock(shot)
  {
    r := text + "\n[" + shot.timestamp + "]\n";
    r := r + "Camera: " + shot.camera + "\n";
    r := r + "Audio: " + shot.audio + "\n";
    r := r + "Narration: " + shot.narration + "\n";
    r := r + "Graphics: " + shot.graphics + "\n";
  }

  lemma ShotBlocksSnoc(shots: seq<VideoShot>, shot: VideoShot)
    ensures ShotBlocks(shots + [shot]) == ShotBlocks(shots) + ShotBlock(shot)
  {
    ShotBlocksAppend(shots, [shot]);
    assert Blocks([shot]) == [ShotBlock(shot)];
    assert Join([ShotBlock(shot)]) == Join([]) + ShotBlock(shot);
  }

  /** Blocks of a concatenation are the concatenation of the blocks. */
  lemma ShotBlocksAppend(xs: seq<VideoShot>, ys: seq<VideoShot>)
    ensures ShotBlocks(xs + ys) == ShotBlocks(xs) + ShotBlocks(ys)
  {
    assert Blocks(xs + ys) == Blocks(xs) + Blocks(ys);
    JoinAppend(Blocks(xs), Blocks(ys));
  }

  /** Formatting `xs ++ ys` is formatting `xs` followed by the blocks of `ys`. */
  lemma FormatAppendsShots(script: VideoScript, xs: seq<VideoShot>, ys: seq<VideoShot>)
    ensures FormatScript(script.(shots := xs + ys)) == FormatScript(script.(shots := xs)) + ShotBlocks(ys)
  {
    ShotBlocksAppend(xs, ys);
  }

  /** The blocks are laid out in input order: the first shot's block comes first. */
  lemma ShotBlocksFirst(shots: seq<VideoShot>)
    requires |shots| > 0
    ensures ShotBlocks(shots) == ShotBlock(shots[0]) + ShotBlocks(shots[1..])
  {
    assert shots == [shots[0]] + shots[1..];
    ShotBlocksAppend([shots[0]], shots[1..]);
    assert Blocks([shots[0]]) == [ShotBlock(shots[0])];
    assert Join([ShotBlock(shots[0])]) == Join([]) + ShotBlock(shots[0]);
  }

  /** A script without shots renders as exactly its header. */
  lemma NoShotsIsHeader(script: VideoScript)
    requires script.shots == []
    ensures FormatScript(script) == "VIDEO SCRIPT: " + script.conceptName + "\nFINAL CTA: " + script.cta + "\n\n" + Rule
  {
  }
}
