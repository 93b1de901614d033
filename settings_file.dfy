/**
 * The settings file written by the settings screen: one `key:value` line per
 * setting. Reading it splits each line at its first ':' and routes the value
 * to one of six fields; unknown keys and values that do not convert leave the
 * fields as they were.
 */
module SettingsFile {
  import opened Wrappers
  import opened NumberText

  /** The room and scenario as stored: three dimensions, the pollutant index and the opening counts. */
  datatype Settings = Settings(width: real, depth: real, height: real,
                               pollutantIndex: int, passages: int, windows: int)

  /** The values in force before any file is read: a 5 x 5 x 3 room with fine dust and no openings. */
  const DEFAULT_SETTINGS: Settings := Settings(5.0, 5.0, 3.0, 0, 0, 0)

  datatype Field = Width | Depth | Height | PollutantIndex | Passages | Windows

  /** The six keys, exactly as written in the file. */
  function FieldNamed(key: string): (f: Option<Field>)
    ensures f == Some(Width) <==> key == "width"
    ensures f == Some(Depth) <==> key == "depth"
    ensures f == Some(Height) <==> key == "height"
    ensures f == Some(PollutantIndex) <==> key == "pollutant_index"
    ensures f == Some(Passages) <==> key == "passages_count"
    ensures f == Some(Windows) <==> key == "windows_count"
  {
    if key == "width" then Some(Width)
    else if key == "depth" then Some(Depth)
    else if key == "height" then Some(Height)
    else if key == "pollutant_index" then Some(PollutantIndex)
    else if key == "passages_count" then Some(Passages)
    else if key == "windows_count" then Some(Windows)
    else None
  }

  /** t agrees with s on field f. */
  predicate SameOn(s: Settings, t: Settings, f: Field)
  {
    match f
    case Width => s.width == t.width
    case Depth => s.depth == t.depth
    case Height => s.height == t.height
    case PollutantIndex => s.pollutantIndex == t.pollutantIndex
    case Passages => s.passages == t.passages
    case Windows => s.windows == t.windows
  }

  /** t agrees with s on every field except possibly f. */
  predicate SameExcept(s: Settings, t: Settings, f: Field)
  {
    forall g: Field :: g != f ==> SameOn(s, t, g)
  }

  /** Index of the first ':' at or after i, or |line| when there is none. */
  function ColonAt(line: string, i: nat): (j: nat)
    requires i <= |line|
    ensures i <= j <= |line|
    ensures j < |line| ==> line[j] == ':'
    ensures forall k :: i <= k < j ==> line[k] != ':'
    decreases |line| - i
  {
    if i == |line| || line[i] == ':' then i else ColonAt(line, i + 1)
  }

  /**
   * The key and the value of a line, or None when reading the value fails:
   * the key is everything before the first ':', the value everything after
   * it, and a line without a ':' or with nothing after it yields no value.
   */
  function SplitLine(line: string): (r: Option<(string, string)>)
    ensures r.Some? ==> ':' !in r.value.0 && r.value.1 != []
  {
    var j := ColonAt(line, 0);
    assert forall k :: 0 <= k < |line[..j]| ==> line[..j][k] == line[k];
    if j + 1 < |line| then Some((line[..j], line[j + 1..])) else None
  }

  /** A line splits exactly when it has a ':' before its last character. */
  lemma SplitNeedsColon(line: string)
    ensures SplitLine(line).None? <==> forall k :: 0 <= k < |line| - 1 ==> line[k] != ':'
  {
    var j := ColonAt(line, 0);
    if j + 1 < |line| {
      assert line[j] == ':';
    }
  }

  /** Splitting undoes joining: a key without ':' and a non-empty value come back as they were written. */
  lemma SplitJoin(key: string, value: string)
    requires ':' !in key && value != []
    ensures SplitLine(key + ":" + value) == Some((key, value))
  {
    var line := key + ":" + value;
    assert forall k :: 0 <= k < |key| ==> line[k] == key[k];
    assert line[|key|] == ':';
    assert line[..|key|] == key;
    assert line[|key| + 1..] == value;
  }

  /** Every line that splits is such a join: the key has no ':' and the value is not empty. */
  lemma SplitIsJoin(line: string)
    requires SplitLine(line).Some?
    ensures var (key, value) := SplitLine(line).value;
            ':' !in key && value != [] && line == key + ":" + value
  {
    var j := ColonAt(line, 0);
    assert line == line[..j] + [line[j]] + line[j + 1..];
  }

  /** The value written for a field, when it converts; None when the conversion throws. */
  function Converted(s: Settings, f: Field, value: string): Option<Settings>
  {
    match f
    case Width => var x :- ParseFloat(value); Some(s.(width := x))
    case Depth => var x :- ParseFloat(value); Some(s.(depth := x))
    case Height => var x :- ParseFloat(value); Some(s.(height := x))
    case PollutantIndex => var n :- ParseInt(value); Some(s.(pollutantIndex := n))
    case Passages => var n :- ParseInt(value); Some(s.(passages := n))
    case Windows => var n :- ParseInt(value); Some(s.(windows := n))
  }

  /** One line of the file applied to the settings read so far. */
  function ApplyLine(s: Settings, line: string): (r: Settings)
    ensures r == s || exists f :: SameExcept(s, r, f)
  {
    match SplitLine(line)
    case None => s
    case Some((key, value)) =>
      match FieldNamed(key)
      case None => s
      case Some(f) =>
        match Converted(s, f, value)
        case None => s
        case Some(t) => assert SameExcept(s, t, f); t
  }

  /**
   * What a `key:value` line does: a known key whose value converts sets
   * exactly that field to the converted value; an unknown key, or a value
   * that does not convert, changes nothing.
   */
  lemma KeyValueLine(s: Settings, key: string, value: string)
    requires ':' !in key && value != []
    ensures var r := ApplyLine(s, key + ":" + value);
            && (FieldNamed(key).None? ==> r == s)
            && (key == "width" ==> r == if ParseFloat(value).Some? then s.(width := ParseFloat(value).value) else s)
            && (key == "depth" ==> r == if ParseFloat(value).Some? then s.(depth := ParseFloat(value).value) else s)
            && (key == "height" ==> r == if ParseFloat(value).Some? then s.(height := ParseFloat(value).value) else s)
            && (key == "pollutant_index" ==>
                  r == if ParseInt(value).Some? then s.(pollutantIndex := ParseInt(value).value) else s)
            && (key == "passages_count" ==> r == if ParseInt(value).Some? then s.(passages := ParseInt(value).value) else s)
            && (key == "windows_count" ==> r == if ParseInt(value).Some? then s.(windows := ParseInt(value).value) else s)
  {
    SplitJoin(key, value);
    if key == "width" {
      assert FieldNamed(key) == Some(Width);
    } else if key == "depth" {
      assert FieldNamed(key) == Some(Depth);
    } else if key == "height" {
      assert FieldNamed(key) == Some(Height);
    } else if key == "pollutant_index" {
      assert FieldNamed(key) == Some(PollutantIndex);
    } else if key == "passages_count" {
      assert FieldNamed(key) == Some(Passages);
    } else if key == "windows_count" {
      assert FieldNamed(key) == Some(Windows);
    }
  }

  /** A line with no ':' before its last character (no ':' at all, or nothing after it) changes nothing. */
  lemma UnsplitLineIgnored(s: Settings, line: string)
    requires forall k :: 0 <= k < |line| - 1 ==> line[k] != ':'
    ensures ApplyLine(s, line) == s
  {
    var j := ColonAt(line, 0);
    assert j + 1 >= |line|;
  }

  /** The file's lines applied in order. */
  function ApplyLines(s: Settings, lines: seq<string>): Settings
    decreases |lines|
  {
    if lines == [] then s else ApplyLine(ApplyLines(s, lines[..|lines| - 1]), lines[|lines| - 1])
  }

  /** Reading a + b is reading a, then reading b from where a left off. */
  lemma {:induction false} ApplyLinesAppend(s: Settings, a: seq<string>, b: seq<string>)
    ensures ApplyLines(s, a + b) == ApplyLines(ApplyLines(s, a), b)
    decreases |b|
  {
    if b == [] {
      assert a + b == a;
    } else {
      assert (a + b)[..|a + b| - 1] == a + b[..|b| - 1];
      ApplyLinesAppend(s, a, b[..|b| - 1]);
    }
  }

  /** The key a line routes to, if it splits and names one of the six fields. */
  function LineField(line: string): Option<Field>
  {
    match SplitLine(line)
    case None => None
    case Some((key, _)) => FieldNamed(key)
  }

  /** A line changes at most the field its key names. */
  lemma ApplyLineFrame(s: Settings, line: string, f: Field)
    requires LineField(line) != Some(f)
    ensures SameOn(s, ApplyLine(s, line), f)
  {
    match SplitLine(line)
    case None =>
    case Some((key, value)) =>
      match FieldNamed(key)
      case None =>
      case Some(g) =>
        match Converted(s, g, value)
        case None =>
        case Some(t) => assert SameExcept(s, t, g);
  }

  /** A field no line names keeps the value it had before the file was read. */
  lemma {:induction false} UnnamedFieldKept(s: Settings, lines: seq<string>, f: Field)
    requires forall i :: 0 <= i < |lines| ==> LineField(lines[i]) != Some(f)
    ensures SameOn(s, ApplyLines(s, lines), f)
    decreases |lines|
  {
    if lines != [] {
      var front := lines[..|lines| - 1];
      UnnamedFieldKept(s, front, f);
      ApplyLineFrame(ApplyLines(s, front), lines[|lines| - 1], f);
    }
  }
}
