/**
 * The command-line parsers of the capture example: the device argument (an index or a
 * name), the requested-format argument ("type" or "type:option") and its translation into
 * a format request, and the property-kind argument.
 *
 * Parsing a frame format from its text (`FrameFormat::from_str`) is not part of this model
 * and is a parameter.
 */
module CaptureCli {
  import opened Wrappers
  import Numeric
  import CoreTypes
  import FormatFilters

  // ---------------------------------------------------------------------------------------
  // Splitting on a separator
  // ---------------------------------------------------------------------------------------

  /** Pieces joined with a separator between consecutive ones. */
  function Join(parts: seq<string>, sep: char): string
    requires |parts| >= 1
    decreases |parts|
  {
    if |parts| == 1 then parts[0] else parts[0] + [sep] + Join(parts[1..], sep)
  }

  /** `str::split` on one character: the maximal runs without the separator, at least one. */
  function Split(s: string, sep: char): (r: seq<string>)
    ensures |r| >= 1
    ensures forall i :: 0 <= i < |r| ==> sep !in r[i]
    ensures Join(r, sep) == s
    decreases |s|
  {
    if |s| == 0 then [""]
    else
      var rest := Split(s[1..], sep);
      if s[0] == sep then
        assert ([""] + rest)[1..] == rest;
        [""] + rest
      else
        var first := [s[0]] + rest[0];
        assert sep !in first;
        var r := [first] + rest[1..];
        assert r[1..] == rest[1..];
        assert Join(r, sep) == [s[0]] + Join(rest, sep);
        assert s == [s[0]] + s[1..];
        r
  }

  /** Splitting the join of pieces without the separator gives the pieces back. */
  lemma {:induction false} SplitJoin(parts: seq<string>, sep: char)
    requires |parts| >= 1
    requires forall i :: 0 <= i < |parts| ==> sep !in parts[i]
    ensures Split(Join(parts, sep), sep) == parts
    decreases |Join(parts, sep)|
  {
    var s := Join(parts, sep);
    if parts[0] == "" {
      if |parts| > 1 {
        assert s == [sep] + Join(parts[1..], sep);
        assert s[1..] == Join(parts[1..], sep);
        SplitJoin(parts[1..], sep);
        assert parts == [""] + parts[1..];
      }
    } else {
      var c := parts[0][0];
      var tail := [parts[0][1..]] + parts[1..];
      JoinFirstChar(parts, sep);
      assert s[0] == c && s[1..] == Join(tail, sep);
      SplitJoin(tail, sep);
    }
  }

  /**
   * A join whose first piece starts with character c is c followed by the join of the
   * pieces with that character removed from the first.
   */
  lemma JoinFirstChar(parts: seq<string>, sep: char)
    requires |parts| >= 1 && parts[0] != ""
    requires forall i :: 0 <= i < |parts| ==> sep !in parts[i]
    ensures var tail := [parts[0][1..]] + parts[1..];
      Join(parts, sep) == [parts[0][0]] + Join(tail, sep) && parts[0][0] != sep
      && (forall i :: 0 <= i < |tail| ==> sep !in tail[i])
      && |Join(tail, sep)| < |Join(parts, sep)|
      && parts == [[parts[0][0]] + tail[0]] + tail[1..]
  {
    var c := parts[0][0];
    var tail := [parts[0][1..]] + parts[1..];
    assert tail[0] == parts[0][1..] && tail[1..] == parts[1..];
    assert parts[0] == [c] + parts[0][1..];
    if |parts| == 1 {
      assert Join(tail, sep) == parts[0][1..];
    } else {
      assert Join(tail, sep) == parts[0][1..] + [sep] + Join(parts[1..], sep);
      assert Join(parts, sep) == parts[0] + [sep] + Join(parts[1..], sep);
    }
    assert c == parts[0][0] && c in parts[0];
    FirstPieceTailAvoids(parts[0], sep);
    forall i | 1 <= i < |tail| ensures sep !in tail[i] {
      assert tail[i] == parts[i];
    }
  }

  /** A piece without the separator keeps it out after its first character is dropped. */
  lemma FirstPieceTailAvoids(piece: string, sep: char)
    requires piece != [] && sep !in piece
    ensures sep !in piece[1..]
  {
    assert forall k :: 0 <= k < |piece[1..]| ==> piece[1..][k] == piece[k + 1];
  }

  /** The separator occurs in a join exactly when there are at least two pieces. */
  lemma {:induction false} SeparatorInJoin(parts: seq<string>, sep: char)
    requires |parts| >= 1
    requires forall i :: 0 <= i < |parts| ==> sep !in parts[i]
    ensures sep in Join(parts, sep) <==> |parts| > 1
    decreases |parts|
  {
    if |parts| > 1 {
      assert Join(parts, sep)[|parts[0]|] == sep;
    }
  }

  /** A join of at least two pieces starts with the first two and a separator between them. */
  lemma JoinStartsWithTwo(parts: seq<string>, sep: char)
    requires |parts| >= 2
    ensures var p := parts[0] + [sep] + parts[1];
      |p| <= |Join(parts, sep)| && Join(parts, sep)[..|p|] == p
      && (|p| == |Join(parts, sep)| || Join(parts, sep)[|p|] == sep)
  {
    var rest := Join(parts[1..], sep);
    if |parts| == 2 {
      assert rest == parts[1];
    } else {
      assert parts[1..][1..] == parts[2..];
      assert rest == parts[1] + [sep] + Join(parts[2..], sep);
    }
  }

  // ---------------------------------------------------------------------------------------
  // The device argument
  // ---------------------------------------------------------------------------------------

  /** `IndexKind`: a device given by index or by name. */
  datatype IndexKind = Name(name: string) | Index(index: Numeric.u32)

  /** `IndexKind::from_str`: an index when the text parses as a `u32`, otherwise a name. */
  function ParseIndexKind(s: string): (r: Result<IndexKind, string>)
    ensures r.Ok?
    ensures r.value.Index? <==> Numeric.ParseU32(s).Ok?
    ensures r.value.Index? ==> r.value.index == Numeric.ParseU32(s).value
    ensures r.value.Name? ==> r.value.name == s
  {
    match Numeric.ParseU32(s)
    case Ok(p) => Ok(Index(p))
    case Err(_) => Ok(Name(s))
  }

  /** The decimal text of an index is read back as that index. */
  lemma IndexKindRoundTrip(n: Numeric.u32)
    ensures ParseIndexKind(Numeric.NatToString(n)) == Ok(Index(n))
  {
    Numeric.ParseNatToString(n);
  }

  // ---------------------------------------------------------------------------------------
  // The requested-format argument
  // ---------------------------------------------------------------------------------------

  /** `RequestedCliFormat`: the format type and the optional option text. */
  datatype RequestedCliFormat = RequestedCliFormat(format_type: string, format_option: Option<string>)

  /**
   * `RequestedCliFormat::from_str`: the text before the first ':' is the type, the text
   * between the first and the second ':' (if there is a first) is the option. The
   * "empty string" error cannot happen, since splitting gives at least one piece.
   */
  function ParseRequestedCliFormat(s: string): (r: Result<RequestedCliFormat, string>)
    ensures r.Ok?
    ensures ':' !in r.value.format_type
    ensures r.value.format_option.None? <==> ':' !in s
    ensures r.value.format_option.None? ==> r.value.format_type == s
    ensures r.value.format_option.Some? ==>
      var p := r.value.format_type + ":" + r.value.format_option.value;
      ':' !in r.value.format_option.value && |p| <= |s| && s[..|p|] == p && (|p| == |s| || s[|p|] == ':')
  {
    var splitted := Split(s, ':');
    SeparatorInJoin(splitted, ':');
    if |splitted| == 0 then Err("empty string")
    else if |splitted| > 1 then
      JoinStartsWithTwo(splitted, ':');
      Ok(RequestedCliFormat(splitted[0], Some(splitted[1])))
    else Ok(RequestedCliFormat(splitted[0], None))
  }

  /** "type:option" with neither part holding ':' parses back into that type and option. */
  lemma RequestedCliFormatRoundTrip(format_type: string, option: string)
    requires ':' !in format_type && ':' !in option
    ensures ParseRequestedCliFormat(format_type + ":" + option) == Ok(RequestedCliFormat(format_type, Some(option)))
  {
    var parts := [format_type, option];
    assert parts[1..] == [option];
    assert Join(parts, ':') == format_type + ":" + option;
    SplitJoin(parts, ':');
  }

  /** The format-type names `make_requested` knows. */
  const KNOWN_TYPES: set<string> := {"AbsoluteHighestResolution", "AbsoluteHighestFrameRate",
    "HighestResolution", "HighestFrameRate", "Exact", "Closest", "None"}

  /** The comma-separated values of an option. */
  function Values(option: string): (vs: seq<string>)
    ensures |vs| >= 1
  {
    Split(option, ',')
  }

  /** Whether the first `n` values of an option parse as `u32`s. */
  predicate NumbersParse(vs: seq<string>, n: nat)
  {
    n <= |vs| && forall i :: 0 <= i < n ==> Numeric.ParseU32(vs[i]).Ok?
  }

  /**
   * What `make_requested` unwraps without panicking: "HighestResolution" needs "x,y",
   * "HighestFrameRate" a number, "Exact" and "Closest" "x,y,fps,fourcc"; the other types
   * need nothing.
   */
  predicate OptionReadable(f: RequestedCliFormat, parse_fourcc: string -> Result<CoreTypes.FrameFormat, string>)
  {
    match f.format_type
    case "HighestResolution" =>
      f.format_option.Some? && NumbersParse(Values(f.format_option.value), 2)
    case "HighestFrameRate" =>
      f.format_option.Some? && Numeric.ParseU32(f.format_option.value).Ok?
    case "Exact" =>
      f.format_option.Some? && NumbersParse(Values(f.format_option.value), 3)
      && |Values(f.format_option.value)| >= 4 && parse_fourcc(Values(f.format_option.value)[3]).Ok?
    case "Closest" =>
      f.format_option.Some? && NumbersParse(Values(f.format_option.value), 3)
      && |Values(f.format_option.value)| >= 4 && parse_fourcc(Values(f.format_option.value)[3]).Ok?
    case _ => true
  }

  /** The camera format "x,y,fps,fourcc" describes. */
  function FormatFromValues(vs: seq<string>, parse_fourcc: string -> Result<CoreTypes.FrameFormat, string>)
    : (cf: CoreTypes.CameraFormat)
    requires NumbersParse(vs, 3) && |vs| >= 4 && parse_fourcc(vs[3]).Ok?
    ensures cf.resolution.width_x == Numeric.ParseU32(vs[0]).value
    ensures cf.resolution.height_y == Numeric.ParseU32(vs[1]).value
    ensures cf.frame_rate == Numeric.ParseU32(vs[2]).value as real
    ensures cf.format == parse_fourcc(vs[3]).value
  {
    var resolution := CoreTypes.Resolution(Numeric.ParseU32(vs[0]).value, Numeric.ParseU32(vs[1]).value);
    CoreTypes.CameraFormat(resolution, parse_fourcc(vs[3]).value, Numeric.ParseU32(vs[2]).value as real)
  }

  /**
   * `make_requested`: the format request the type names (always asking for RGB output), or
   * nothing for an unknown type. The absolute-highest types and "None" ignore the option.
   */
  function MakeRequested(f: RequestedCliFormat, parse_fourcc: string -> Result<CoreTypes.FrameFormat, string>)
    : (r: Option<FormatFilters.RequestedFormatType>)
    requires OptionReadable(f, parse_fourcc)
    ensures r.None? <==> f.format_type !in KNOWN_TYPES
    ensures f.format_type == "None" ==> r == Some(FormatFilters.RequestedFormatType.None)
    ensures f.format_type == "AbsoluteHighestResolution" ==> r == Some(FormatFilters.AbsoluteHighestResolution)
    ensures f.format_type == "AbsoluteHighestFrameRate" ==> r == Some(FormatFilters.AbsoluteHighestFrameRate)
    ensures f.format_type == "HighestFrameRate" ==>
      r == Some(FormatFilters.HighestFrameRate(Numeric.ParseU32(f.format_option.value).value))
    ensures f.format_type == "HighestResolution" ==>
      (r.value.HighestResolution?
       && r.value.resolution.width_x == Numeric.ParseU32(Values(f.format_option.value)[0]).value
       && r.value.resolution.height_y == Numeric.ParseU32(Values(f.format_option.value)[1]).value)
    ensures f.format_type == "Exact" ==> r == Some(FormatFilters.Exact(FormatFromValues(Values(f.format_option.value), parse_fourcc)))
    ensures f.format_type == "Closest" ==> r == Some(FormatFilters.Closest(FormatFromValues(Values(f.format_option.value), parse_fourcc)))
  {
    match f.format_type
    case "AbsoluteHighestResolution" => Some(FormatFilters.AbsoluteHighestResolution)
    case "AbsoluteHighestFrameRate" => Some(FormatFilters.AbsoluteHighestFrameRate)
    case "HighestResolution" =>
      var values := Values(f.format_option.value);
      var x := Numeric.ParseU32(values[0]).value;
      var y := Numeric.ParseU32(values[1]).value;
      Some(FormatFilters.HighestResolution(CoreTypes.Resolution(x, y)))
    case "HighestFrameRate" =>
      Some(FormatFilters.HighestFrameRate(Numeric.ParseU32(f.format_option.value).value))
    case "Exact" =>
      Some(FormatFilters.Exact(FormatFromValues(Values(f.format_option.value), parse_fourcc)))
    case "Closest" =>
      Some(FormatFilters.Closest(FormatFromValues(Values(f.format_option.value), parse_fourcc)))
    case "None" => Some(FormatFilters.RequestedFormatType.None)
    case _ => None
  }

  /** The text "x,y,fps,fourcc" of a camera format, with `fourcc` the frame format's name. */
  function FormatText(x: Numeric.u32, y: Numeric.u32, fps: Numeric.u32, fourcc: string): string
  {
    Join([Numeric.NatToString(x), Numeric.NatToString(y), Numeric.NatToString(fps), fourcc], ',')
  }

  /** Decimal text holds no separator. */
  lemma DigitsHoldNoSeparator(n: nat, sep: char)
    requires !Numeric.IsDigit(sep)
    ensures sep !in Numeric.NatToString(n)
  {
    Numeric.NatToStringDigits(n);
  }

  /** A join holds a character other than the separator only if one of its pieces does. */
  lemma {:induction false} JoinAvoids(parts: seq<string>, sep: char, c: char)
    requires |parts| >= 1 && c != sep
    requires forall i :: 0 <= i < |parts| ==> c !in parts[i]
    ensures c !in Join(parts, sep)
    decreases |parts|
  {
    if |parts| > 1 {
      JoinAvoids(parts[1..], sep, c);
    }
  }

  /** The text of a camera format splits back into its four values and holds no ':'. */
  lemma FormatTextSplits(x: Numeric.u32, y: Numeric.u32, fps: Numeric.u32, fourcc: string)
    requires ',' !in fourcc && ':' !in fourcc
    ensures var parts := [Numeric.NatToString(x), Numeric.NatToString(y), Numeric.NatToString(fps), fourcc];
      Values(FormatText(x, y, fps, fourcc)) == parts && ':' !in FormatText(x, y, fps, fourcc)
  {
    var parts := [Numeric.NatToString(x), Numeric.NatToString(y), Numeric.NatToString(fps), fourcc];
    DigitsHoldNoSeparator(x, ',');
    DigitsHoldNoSeparator(y, ',');
    DigitsHoldNoSeparator(fps, ',');
    DigitsHoldNoSeparator(x, ':');
    DigitsHoldNoSeparator(y, ':');
    DigitsHoldNoSeparator(fps, ':');
    SplitJoin(parts, ',');
    JoinAvoids(parts, ',', ':');
  }

  /**
   * "Exact:x,y,fps,fourcc" asks for exactly that camera format, whenever the frame format's
   * name parses and holds neither ',' nor ':'.
   */
  lemma ExactRequestRoundTrip(x: Numeric.u32, y: Numeric.u32, fps: Numeric.u32, fourcc: string, ff: CoreTypes.FrameFormat,
                              parse_fourcc: string -> Result<CoreTypes.FrameFormat, string>)
    requires ',' !in fourcc && ':' !in fourcc && parse_fourcc(fourcc) == Ok(ff)
    ensures var f := ParseRequestedCliFormat("Exact:" + FormatText(x, y, fps, fourcc)).value;
      OptionReadable(f, parse_fourcc)
      && MakeRequested(f, parse_fourcc) == Some(FormatFilters.Exact(CoreTypes.CameraFormat(CoreTypes.Resolution(x, y), ff, fps as real)))
  {
    var text := FormatText(x, y, fps, fourcc);
    var parts := [Numeric.NatToString(x), Numeric.NatToString(y), Numeric.NatToString(fps), fourcc];
    FormatTextSplits(x, y, fps, fourcc);
    RequestedCliFormatRoundTrip("Exact", text);
    assert "Exact:" + text == "Exact" + ":" + text;
    Numeric.ParseNatToString(x);
    Numeric.ParseNatToString(y);
    Numeric.ParseNatToString(fps);
    var f := ParseRequestedCliFormat("Exact:" + text).value;
    assert f == RequestedCliFormat("Exact", Some(text));
    assert Values(text) == parts;
    assert NumbersParse(parts, 3);
    assert OptionReadable(f, parse_fourcc);
    var cf := FormatFromValues(parts, parse_fourcc);
    assert cf == CoreTypes.CameraFormat(CoreTypes.Resolution(x, y), ff, fps as real);
  }

  // ---------------------------------------------------------------------------------------
  // The property-kind argument
  // ---------------------------------------------------------------------------------------

  /** `PropertyKind`: which properties of a device to list. */
  datatype PropertyKind = All | Controls | CompatibleFormats

  /** The spellings accepted for each property kind. */
  function Spellings(k: PropertyKind): (ss: set<string>)
    ensures |ss| >= 3
  {
    match k
    case All => {"All", "ALL", "all"}
    case Controls => {"Controls", "controls", "CONTROLS", "ctrls"}
    case CompatibleFormats => {"CompatibleFormats", "compatibleformats", "COMPATIBLEFORMATS", "cf", "compatfmts"}
  }

  /** `PropertyKind::from_str`: the kind a spelling names, or an "unknown" message. */
  function ParsePropertyKind(s: string): (r: Result<PropertyKind, string>)
    ensures r.Ok? ==> s in Spellings(r.value)
    ensures r.Err? ==> r.error == "unknown PropertyKind: " + s
  {
    if s == "All" || s == "ALL" || s == "all" then Ok(All)
    else if s == "Controls" || s == "controls" || s == "CONTROLS" || s == "ctrls" then Ok(Controls)
    else if s == "CompatibleFormats" || s == "compatibleformats" || s == "COMPATIBLEFORMATS" || s == "cf" || s == "compatfmts"
    then Ok(CompatibleFormats)
    else Err("unknown PropertyKind: " + s)
  }

  /** Exactly the listed spellings are accepted, each for its own kind. */
  lemma ParsePropertyKindExactly(s: string, k: PropertyKind)
    ensures ParsePropertyKind(s) == Ok(k) <==> s in Spellings(k)
  {
    if s in Spellings(k) {
      match k
      case All =>
      case Controls =>
        assert s != "All" && s != "ALL" && s != "all" by {
          assert s == "Controls" || s == "controls" || s == "CONTROLS" || s == "ctrls";
        }
      case CompatibleFormats =>
        assert s == "CompatibleFormats" || s == "compatibleformats" || s == "COMPATIBLEFORMATS" || s == "cf" || s == "compatfmts";
        assert s != "All" && s != "ALL" && s != "all";
        assert s != "Controls" && s != "controls" && s != "CONTROLS" && s != "ctrls";
    }
  }
}
