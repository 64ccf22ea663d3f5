/**
 * One line of the Prometheus text exposition format as the exporter writes it
 * (formatValue): `key{meta} value` followed by a newline, where the braces are
 * left out when meta is empty. ParseLine is its inverse; NewlineCount counts
 * the line breaks a line adds to the response body.
 */
module Exposition {
  import opened Wrappers

  /** formatValue: one exposition line. */
  function FormatValue(key: string, meta: string, value: string): (line: string)
    ensures |line| == |key| + (if meta == "" then 0 else |meta| + 2) + |value| + 2
    ensures line[..|key|] == key
    ensures line[|line| - 1] == '\n'
  {
    var head := if meta != "" then key + "{" + meta + "}" else key;
    head + " " + value + "\n"
  }

  /** The three parts of an exposition line. */
  datatype Sample = Sample(key: string, meta: string, value: string)

  /** The first position of c in s, if any. */
  function IndexOf(s: string, c: char): (r: Option<nat>)
    ensures r.None? ==> c !in s
    ensures r.Some? ==> r.value < |s| && s[r.value] == c && c !in s[..r.value]
  {
    if s == [] then None
    else if s[0] == c then Some(0)
    else match IndexOf(s[1..], c)
      case None => None
      case Some(i) => assert s[..i + 1] == [s[0]] + s[1..][..i]; Some(i + 1)
  }

  /** The last position of c in s, if any. */
  function LastIndexOf(s: string, c: char): (r: Option<nat>)
    ensures r.None? ==> c !in s
    ensures r.Some? ==> r.value < |s| && s[r.value] == c && c !in s[r.value + 1..]
  {
    if s == [] then None
    else if s[|s| - 1] == c then Some(|s| - 1)
    else match LastIndexOf(s[..|s| - 1], c)
      case None => assert s == s[..|s| - 1] + [s[|s| - 1]]; None
      case Some(i) => SuffixOfInit(s, i); Some(i)
  }

  /** A suffix of s, seen through s without its last character. */
  lemma SuffixOfInit(s: string, i: nat)
    requires i + 1 < |s|
    ensures s[i + 1..] == s[..|s| - 1][i + 1..] + [s[|s| - 1]]
  {
    var t := s[..|s| - 1];
    assert s == t + [s[|s| - 1]];
    assert (t + [s[|s| - 1]])[i + 1..] == t[i + 1..] + [s[|s| - 1]];
  }

  /**
   * Reads a line back into key, labels and value: the value is what follows the
   * last space, and the labels, if any, are between the first '{' and a closing
   * '}' just before that space.
   */
  function ParseLine(line: string): (r: Option<Sample>)
  {
    if |line| == 0 || line[|line| - 1] != '\n' then None
    else
      var s := line[..|line| - 1];
      match LastIndexOf(s, ' ')
      case None => None
      case Some(j) =>
        var head, value := s[..j], s[j + 1..];
        match IndexOf(head, '{')
        case None => Some(Sample(head, "", value))
        case Some(b) =>
          if b + 2 < |head| && head[|head| - 1] == '}'
          then Some(Sample(head[..b], head[b + 1..|head| - 1], value))
          else None
  }

  lemma IndexOfAt(a: string, c: char, b: string)
    requires c !in a
    ensures IndexOf(a + [c] + b, c) == Some(|a|)
  {
    assert (a + [c] + b)[|a|] == c;
    assert (a + [c] + b)[..|a|] == a;
  }

  lemma LastIndexOfAt(a: string, c: char, b: string)
    requires c !in b
    ensures LastIndexOf(a + [c] + b, c) == Some(|a|)
  {
    assert (a + [c] + b)[|a|] == c;
    assert (a + [c] + b)[|a| + 1..] == b;
  }

  /**
   * Round trip: a formatted line parses back to its parts, whenever the key has
   * no '{' and the value has no space (every metric name of the exporter, and
   * every normalised value, is of that kind).
   */
  lemma ParseFormat(key: string, meta: string, value: string)
    requires '{' !in key && ' ' !in value
    ensures ParseLine(FormatValue(key, meta, value)) == Some(Sample(key, meta, value))
  {
    var head := if meta != "" then key + "{" + meta + "}" else key;
    LineParts(head, value);
    if meta != "" {
      HeadParts(key, meta);
    } else {
      assert IndexOf(head, '{').None?;
    }
  }

  /** The value of a line is what follows its last space. */
  lemma LineParts(head: string, value: string)
    requires ' ' !in value
    ensures var line := head + " " + value + "\n";
      var s := line[..|line| - 1];
      && |line| > 0 && line[|line| - 1] == '\n'
      && LastIndexOf(s, ' ') == Some(|head|) && s[..|head|] == head && s[|head| + 1..] == value
  {
    var line := head + " " + value + "\n";
    var s := line[..|line| - 1];
    assert s == head + [' '] + value;
    LastIndexOfAt(head, ' ', value);
    assert s[..|head|] == head && s[|head| + 1..] == value;
  }

  /** The labels of a line sit between the first '{' and the closing '}'. */
  lemma HeadParts(key: string, meta: string)
    requires '{' !in key && meta != ""
    ensures var head := key + "{" + meta + "}";
      && IndexOf(head, '{') == Some(|key|) && |key| + 2 < |head| && head[|head| - 1] == '}'
      && head[..|key|] == key && head[|key| + 1..|head| - 1] == meta
  {
    var head := key + "{" + meta + "}";
    IndexOfAt(key, '{', meta + "}");
    assert head == key + ['{'] + (meta + "}");
    assert head[..|key|] == key;
    assert head[|key| + 1..|head| - 1] == meta;
  }

  /** The converse: whatever parses is the formatting of what it parses to. */
  lemma FormatParse(line: string)
    requires ParseLine(line).Some?
    ensures var p := ParseLine(line).value;
      && line == FormatValue(p.key, p.meta, p.value)
      && '{' !in p.key && ' ' !in p.value
  {
    var s := line[..|line| - 1];
    var j := LastIndexOf(s, ' ').value;
    var head, value := s[..j], s[j + 1..];
    SplitAt(line, |line| - 1);
    SplitAt(s, j);
    match IndexOf(head, '{')
    case None =>
      assert ParseLine(line) == Some(Sample(head, "", value));
      assert line == head + " " + value + "\n";
    case Some(b) =>
      var key, meta := head[..b], head[b + 1..|head| - 1];
      assert ParseLine(line) == Some(Sample(key, meta, value));
      HeadAt(head, b);
      assert line == key + "{" + meta + "}" + " " + value + "\n";
  }

  /** s is what precedes position j, the character there, and what follows. */
  lemma SplitAt(s: string, j: nat)
    requires j < |s|
    ensures s == s[..j] + [s[j]] + s[j + 1..]
  {
  }

  /** A head with a '{' at b and a final '}' is the key, the braces and what they enclose. */
  lemma HeadAt(head: string, b: nat)
    requires b + 2 < |head| && head[b] == '{' && head[|head| - 1] == '}'
    ensures head == head[..b] + "{" + head[b + 1..|head| - 1] + "}"
  {
    var inner := head[b + 1..|head| - 1];
    assert head[b + 1..] == inner + "}";
    assert head == head[..b] + [head[b]] + head[b + 1..];
  }

  /** How many line breaks s holds. */
  function NewlineCount(s: string): nat
  {
    if s == [] then 0
    else NewlineCount(s[..|s| - 1]) + (if s[|s| - 1] == '\n' then 1 else 0)
  }

  lemma {:induction false} NewlineCountConcat(a: string, b: string)
    ensures NewlineCount(a + b) == NewlineCount(a) + NewlineCount(b)
  {
    if b == [] {
      assert a + b == a;
    } else {
      assert (a + b)[..|a + b| - 1] == a + b[..|b| - 1];
      NewlineCountConcat(a, b[..|b| - 1]);
    }
  }

  /** A line adds exactly one line break to those its parts already hold. */
  lemma FormatValueNewlines(key: string, meta: string, value: string)
    ensures NewlineCount(FormatValue(key, meta, value))
         == NewlineCount(key) + NewlineCount(meta) + NewlineCount(value) + 1
  {
    NewlineCountConcat(key + "{" + meta, "}");
    NewlineCountConcat(key + "{", meta);
    NewlineCountConcat(key, "{");
    var head := if meta != "" then key + "{" + meta + "}" else key;
    NewlineCountConcat(head + " " + value, "\n");
    NewlineCountConcat(head + " ", value);
    NewlineCountConcat(head, " ");
    assert NewlineCount("{") == 0 && NewlineCount("}") == 0 && NewlineCount(" ") == 0;
    assert NewlineCount("\n") == 1;
  }
}
