/** The two engine commands the editor issues, and the merge manifest.
    A small reading of ffmpeg's command line (options with their values,
    the options before `-i` applying to that input, the rest to the one
    output) states what each argument vector means. */
module Commands {
  import opened Wrappers
  import opened Text

  const TrimInput: string := "input.mp4"
  const TrimOutput: string := "output.mp4"
  const ListFile: string := "list.txt"
  const MergedOutput: string := "merged.mp4"

  /** The trim command: `-ss <start> -i input.mp4 -t <length> -c copy output.mp4`,
      with the two numbers already rendered as text. */
  function TrimArgs(startText: string, lengthText: string): seq<string> {
    ["-ss", startText, "-i", TrimInput, "-t", lengthText, "-c", "copy", TrimOutput]
  }

  /** The merge command: the concat demuxer over `list.txt`, stream copy. */
  const MergeArgs: seq<string> := ["-f", "concat", "-safe", "0", "-i", ListFile, "-c", "copy", MergedOutput]

  // ---------------------------------------------------------------------
  // Reading an argument vector

  predicate IsOption(token: string) {
    |token| > 0 && token[0] == '-'
  }

  /** The option/value pairs at the front of an argument vector and the
      tokens after them. */
  datatype CommandLine = CommandLine(options: seq<(string, string)>, rest: seq<string>)

  function ParseArgs(args: seq<string>): CommandLine
    decreases |args|
  {
    if |args| >= 2 && IsOption(args[0]) then
      var c := ParseArgs(args[2..]);
      c.(options := [(args[0], args[1])] + c.options)
    else CommandLine([], args)
  }

  function Flatten(options: seq<(string, string)>): seq<string> {
    if options == [] then [] else [options[0].0, options[0].1] + Flatten(options[1..])
  }

  /** One input with its options and one output with its options. */
  datatype Invocation = Invocation(inputOptions: seq<(string, string)>, input: string,
                                   outputOptions: seq<(string, string)>, output: string)

  predicate OptionsAre(options: seq<(string, string)>) {
    forall k :: 0 <= k < |options| ==> IsOption(options[k].0) && options[k].0 != "-i"
  }

  /** An invocation that an argument vector can spell unambiguously. */
  predicate WellFormed(inv: Invocation) {
    OptionsAre(inv.inputOptions) && OptionsAre(inv.outputOptions) && !IsOption(inv.output)
  }

  function Render(inv: Invocation): seq<string> {
    Flatten(inv.inputOptions) + ["-i", inv.input] + Flatten(inv.outputOptions) + [inv.output]
  }

  /** The options before the first `-i`, its file, and the options after it. */
  function SplitAtInput(options: seq<(string, string)>): Option<(seq<(string, string)>, string, seq<(string, string)>)> {
    if options == [] then None
    else if options[0].0 == "-i" then Some(([], options[0].1, options[1..]))
    else match SplitAtInput(options[1..])
      case None => None
      case Some((before, input, after)) => Some(([options[0]] + before, input, after))
  }

  /** How the engine reads an argument vector with one input and one output. */
  function ParseInvocation(args: seq<string>): Option<Invocation> {
    var c := ParseArgs(args);
    if |c.rest| != 1 then None
    else match SplitAtInput(c.options)
      case None => None
      case Some((before, input, after)) => Some(Invocation(before, input, after, c.rest[0]))
  }

  lemma {:induction false} ParseFlatten(options: seq<(string, string)>, rest: seq<string>)
    requires forall k :: 0 <= k < |options| ==> IsOption(options[k].0)
    requires rest == [] || |rest| == 1 || !IsOption(rest[0])
    ensures ParseArgs(Flatten(options) + rest) == CommandLine(options, rest)
  {
    if options != [] {
      ParseFlatten(options[1..], rest);
      assert Flatten(options) + rest == [options[0].0, options[0].1] + (Flatten(options[1..]) + rest);
      ParseOption(options[0].0, options[0].1, Flatten(options[1..]) + rest);
      assert [options[0]] + options[1..] == options;
    }
  }

  /** An option and its value at the front are read as a pair. */
  lemma ParseOption(option: string, value: string, tail: seq<string>)
    requires IsOption(option)
    ensures ParseArgs([option, value] + tail) == ParseArgs(tail).(options := [(option, value)] + ParseArgs(tail).options)
  {
    assert ([option, value] + tail)[2..] == tail;
  }

  lemma {:induction false} SplitRendered(before: seq<(string, string)>, input: string, after: seq<(string, string)>)
    requires forall k :: 0 <= k < |before| ==> before[k].0 != "-i"
    ensures SplitAtInput(before + [("-i", input)] + after) == Some((before, input, after))
  {
    var all := before + [("-i", input)] + after;
    if before == [] {
      assert all[1..] == after;
    } else {
      assert all[1..] == before[1..] + [("-i", input)] + after;
      SplitRendered(before[1..], input, after);
      assert [before[0]] + before[1..] == before;
    }
  }

  lemma {:induction false} FlattenAppend(a: seq<(string, string)>, b: seq<(string, string)>)
    ensures Flatten(a + b) == Flatten(a) + Flatten(b)
  {
    if a == [] {
      assert a + b == b;
    } else {
      assert (a + b)[1..] == a[1..] + b;
      FlattenAppend(a[1..], b);
    }
  }

  /** Reading a rendered invocation gives it back. */
  lemma ParseRender(inv: Invocation)
    requires WellFormed(inv)
    ensures ParseInvocation(Render(inv)) == Some(inv)
  {
    var all := inv.inputOptions + [("-i", inv.input)] + inv.outputOptions;
    FlattenAppend(inv.inputOptions + [("-i", inv.input)], inv.outputOptions);
    FlattenAppend(inv.inputOptions, [("-i", inv.input)]);
    assert Flatten([("-i", inv.input)]) == ["-i", inv.input];
    assert Render(inv) == Flatten(all) + [inv.output];
    ParseFlatten(all, [inv.output]);
    SplitRendered(inv.inputOptions, inv.input, inv.outputOptions);
  }

  /** The trim command seeks on the input (`-ss` before `-i`, fast seeking)
      and limits the output to `lengthText` seconds of stream copy. */
  lemma TrimArgsMeaning(startText: string, lengthText: string)
    ensures ParseInvocation(TrimArgs(startText, lengthText))
            == Some(Invocation([("-ss", startText)], TrimInput, [("-t", lengthText), ("-c", "copy")], TrimOutput))
  {
    var inv := Invocation([("-ss", startText)], TrimInput, [("-t", lengthText), ("-c", "copy")], TrimOutput);
    assert Flatten([("-ss", startText)]) == ["-ss", startText];
    assert Flatten([("-c", "copy")]) == ["-c", "copy"];
    assert Flatten([("-t", lengthText), ("-c", "copy")]) == ["-t", lengthText, "-c", "copy"];
    assert Render(inv) == TrimArgs(startText, lengthText);
    ParseRender(inv);
  }

  /** The merge command reads `list.txt` with the concat demuxer, path
      safety checks off, and stream-copies into `merged.mp4`. */
  lemma MergeArgsMeaning()
    ensures ParseInvocation(MergeArgs)
            == Some(Invocation([("-f", "concat"), ("-safe", "0")], ListFile, [("-c", "copy")], MergedOutput))
  {
    var inv := Invocation([("-f", "concat"), ("-safe", "0")], ListFile, [("-c", "copy")], MergedOutput);
    assert Flatten([("-safe", "0")]) == ["-safe", "0"];
    assert Flatten([("-f", "concat"), ("-safe", "0")]) == ["-f", "concat", "-safe", "0"];
    assert Flatten([("-c", "copy")]) == ["-c", "copy"];
    assert Render(inv) == MergeArgs;
    ParseRender(inv);
  }

  // ---------------------------------------------------------------------
  // Staged names and the manifest

  /** `input${i}.mp4`. */
  function InputName(i: nat): (name: string)
    ensures name != ListFile && name != MergedOutput
  {
    var name := "input" + NatToString(i) + ".mp4";
    assert name[0] == 'i';
    name
  }

  /** Generated names never collide with each other. */
  lemma InputNamesDistinct(i: nat, j: nat)
    ensures InputName(i) == InputName(j) ==> i == j
  {
    var a, b := InputName(i), InputName(j);
    if a == b {
      var di, dj := NatToString(i), NatToString(j);
      assert |di| == |dj|;
      assert a[5..|a| - 4] == di;
      assert b[5..|b| - 4] == dj;
      NatToStringInjective(i, j);
    }
  }

  /** `file '${fileName}'` without its line break. */
  function ManifestLine(i: nat): string {
    "file '" + InputName(i) + "'"
  }

  function ManifestLines(n: nat): (lines: seq<string>)
    ensures |lines| == n && forall i :: 0 <= i < n ==> lines[i] == ManifestLine(i)
  {
    seq(n, i requires 0 <= i < n => ManifestLine(i))
  }

  /** Each line followed by a line break. */
  function JoinLines(lines: seq<string>): string {
    if lines == [] then "" else lines[0] + "\n" + JoinLines(lines[1..])
  }

  /** The manifest for `n` staged inputs. */
  function Manifest(n: nat): string {
    JoinLines(ManifestLines(n))
  }

  lemma {:induction false} JoinLinesAppend(lines: seq<string>, line: string)
    ensures JoinLines(lines + [line]) == JoinLines(lines) + line + "\n"
  {
    if lines == [] {
      assert lines + [line] == [line];
    } else {
      assert (lines + [line])[1..] == lines[1..] + [line];
      JoinLinesAppend(lines[1..], line);
    }
  }

  /** Appending the next line extends the manifest by one entry, as the
      merge loop does. */
  lemma ManifestGrows(n: nat)
    ensures Manifest(n + 1) == Manifest(n) + ManifestLine(n) + "\n"
  {
    assert ManifestLines(n + 1) == ManifestLines(n) + [ManifestLine(n)];
    JoinLinesAppend(ManifestLines(n), ManifestLine(n));
  }

  predicate NoLineBreak(s: string) {
    forall k :: 0 <= k < |s| ==> s[k] != '\n'
  }

  /** The position of the first line break, or `|s|` when there is none. */
  function LineBreakIndex(s: string): (k: nat)
    ensures k <= |s| && forall j :: 0 <= j < k ==> s[j] != '\n'
    ensures k < |s| ==> s[k] == '\n'
  {
    if s == [] || s[0] == '\n' then 0 else 1 + LineBreakIndex(s[1..])
  }

  /** The lines of a text: each ends at a line break or at the end. */
  function SplitLines(s: string): seq<string>
    decreases |s|
  {
    if s == [] then []
    else
      var k := LineBreakIndex(s);
      if k == |s| then [s] else [s[..k]] + SplitLines(s[k + 1..])
  }

  /** A line without breaks followed by a break splits off as that line. */
  lemma SplitFirstLine(l: string, rest: string)
    requires NoLineBreak(l)
    ensures SplitLines(l + "\n" + rest) == [l] + SplitLines(rest)
  {
    var s := l + "\n" + rest;
    var k := LineBreakIndex(s);
    assert s[|l|] == '\n';
    assert k == |l|;
    assert s[..k] == l;
    assert s[k + 1..] == rest;
  }

  lemma {:induction false} SplitJoin(lines: seq<string>)
    requires forall i :: 0 <= i < |lines| ==> NoLineBreak(lines[i])
    ensures SplitLines(JoinLines(lines)) == lines
  {
    if lines != [] {
      SplitFirstLine(lines[0], JoinLines(lines[1..]));
      SplitJoin(lines[1..]);
    }
  }

  lemma ManifestLineHasNoBreak(i: nat)
    ensures NoLineBreak(ManifestLine(i))
  {
    var d := NatToString(i);
    assert forall k :: 0 <= k < |d| ==> IsDigit(d[k]);
  }

  /** The manifest has exactly one line per input, and line i names the
      i-th staged file. */
  lemma ManifestHasOneLinePerInput(n: nat)
    ensures SplitLines(Manifest(n)) == ManifestLines(n)
  {
    forall i | 0 <= i < n ensures NoLineBreak(ManifestLines(n)[i]) {
      ManifestLineHasNoBreak(i);
    }
    SplitJoin(ManifestLines(n));
  }

  /** For three inputs the manifest lines are exactly these three (and
      by ManifestHasOneLinePerInput the manifest reads as them). */
  lemma ManifestExample()
    ensures ManifestLines(3) == ["file 'input0.mp4'", "file 'input1.mp4'", "file 'input2.mp4'"]
  {
    assert NatToString(0) == "0" && NatToString(1) == "1" && NatToString(2) == "2";
    assert ManifestLine(0) == "file 'input0.mp4'";
    assert ManifestLine(1) == "file 'input1.mp4'";
    assert ManifestLine(2) == "file 'input2.mp4'";
    assert ManifestLines(3) == [ManifestLine(0), ManifestLine(1), ManifestLine(2)];
  }
}
