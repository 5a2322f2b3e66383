/**
 * Flattening a fetched transcript: `"\n".join([item['text'] for item in transcript])`.
 * An entry without a `text` key makes the comprehension raise `KeyError`.
 * `Split` is the inverse used to state what the join preserves.
 */
module TranscriptText {
  import opened Wrappers

  /** One caption entry: its `text` field, `None` when the key is absent. */
  datatype Entry = Entry(text: Option<string>)

  /** The message of the `KeyError` raised for a missing `text` key. */
  const MissingTextMessage: string := "'text'"

  /** The entries' texts in order, or `None` when some entry has no text. */
  function Texts(entries: seq<Entry>): (r: Option<seq<string>>)
    ensures r.Some? <==> forall k :: 0 <= k < |entries| ==> entries[k].text.Some?
    ensures r.Some? ==> |r.value| == |entries|
    ensures r.Some? ==> forall k :: 0 <= k < |entries| ==> r.value[k] == entries[k].text.value
  {
    if entries == [] then Some([])
    else match (entries[0].text, Texts(entries[1..]))
      case (Some(t), Some(rest)) => Some([t] + rest)
      case _ => None
  }

  /** `"\n".join(lines)`. */
  function Join(lines: seq<string>): (s: string)
    ensures lines == [] ==> s == ""
  {
    if lines == [] then ""
    else if |lines| == 1 then lines[0]
    else lines[0] + "\n" + Join(lines[1..])
  }

  /** `s.split("\n")`: the pieces between newline characters, always at least one. */
  function Split(s: string): (r: seq<string>)
    ensures |r| >= 1
  {
    if s == [] then [""]
    else
      var rest := Split(s[1..]);
      if s[0] == '\n' then [""] + rest
      else [[s[0]] + rest[0]] + rest[1..]
  }

  /** A line without newlines splits into itself. */
  lemma {:induction false} SplitLine(line: string)
    requires '\n' !in line
    ensures Split(line) == [line]
  {
    if line != [] {
      assert '\n' !in line[1..];
      SplitLine(line[1..]);
      assert [line[0]] + line[1..] == line;
    }
  }

  /** Splitting a line followed by a newline separates the line from what follows. */
  lemma {:induction false} SplitAfterLine(line: string, tail: string)
    requires '\n' !in line
    ensures Split(line + "\n" + tail) == [line] + Split(tail)
  {
    if line == [] {
      assert line + "\n" + tail == ['\n'] + tail;
      assert (['\n'] + tail)[1..] == tail;
    } else {
      var s := line + "\n" + tail;
      assert s[0] == line[0];
      assert s[1..] == line[1..] + "\n" + tail;
      assert '\n' !in line[1..];
      SplitAfterLine(line[1..], tail);
      assert [line[0]] + line[1..] == line;
    }
  }

  /**
   * The join loses nothing: when no text contains a newline, splitting the
   * joined transcript gives back the entries' texts, in order.
   */
  lemma {:induction false} SplitJoin(lines: seq<string>)
    requires |lines| >= 1
    requires forall k :: 0 <= k < |lines| ==> '\n' !in lines[k]
    ensures Split(Join(lines)) == lines
  {
    if |lines| == 1 {
      SplitLine(lines[0]);
    } else {
      SplitJoin(lines[1..]);
      SplitAfterLine(lines[0], Join(lines[1..]));
      assert [lines[0]] + lines[1..] == lines;
    }
  }

  /** The joined text is as long as all texts together plus one newline between each pair. */
  lemma {:induction false} JoinLength(lines: seq<string>)
    requires lines != []
    ensures |Join(lines)| == TotalLength(lines) + |lines| - 1
  {
    if |lines| > 1 {
      JoinLength(lines[1..]);
    }
  }

  /** The summed length of all lines. */
  function TotalLength(lines: seq<string>): nat {
    if lines == [] then 0 else |lines[0]| + TotalLength(lines[1..])
  }
}
