/**
 * Configuration and calibration file readers. The configuration file is read line
 * by line by a small state machine: a section header arms its section (flag 1..10),
 * the next line that is not a comment holds that section's values, and anything
 * else stops the program. The calibration files are whitespace-separated numbers
 * picked by fixed positions. Opening files is not modelled: the configuration file
 * is its sequence of lines, a calibration file its text (None when it cannot be
 * opened), and Python's float() is the parameter `toReal`.
 */
module ReadConfig {
  import opened Common

  /** Why reading stopped. `Exit` is a sys.exit with its message; the other two are
      the exceptions Python raises on their own. */
  datatype ConfigError =
    | Exit(message: string)
    | ValueError(token: string)    // float() rejected a token of a values line
    | EmptyLine                    // line[0] of an empty line
    | MissingAttribute             // calibration_check before both files were read

  const UnknownLineMessage := "Unknown error reading configuration file!"
  const NoCalibrationMessage := "No calibration file found! Control calibration (mode=3) necessary."
  const NoMagnetometerMessage := "No magnetometer calibration file found! Run mangetometer calibration script."
  const MismatchMessage := "Calibration data does not match configuration data! Control calibration (mode=3) necessary."

  // ---------------------------------------------------------------------------
  // Splitting on whitespace

  /** The characters str.split() with no argument splits on. */
  predicate IsSpace(c: char) {
    c in {' ', '\t', '\n', '\r', '\U{000B}', '\U{000C}', '\U{001C}', '\U{001D}',
          '\U{001E}', '\U{001F}', '\U{0085}', '\U{00A0}', '\U{1680}', '\U{2000}', '\U{2001}', '\U{2002}',
          '\U{2003}', '\U{2004}', '\U{2005}', '\U{2006}', '\U{2007}', '\U{2008}', '\U{2009}', '\U{200A}',
          '\U{2028}', '\U{2029}', '\U{202F}', '\U{205F}', '\U{3000}'}
  }

  /** A token: non-empty and free of whitespace. */
  predicate IsWord(w: string) {
    |w| > 0 && forall i :: 0 <= i < |w| ==> !IsSpace(w[i])
  }

  /** The longest prefix of s without whitespace. */
  function LeadingWord(s: string): (w: string)
    ensures |w| <= |s| && w == s[..|w|]
    ensures forall i :: 0 <= i < |w| ==> !IsSpace(w[i])
    ensures |w| < |s| ==> IsSpace(s[|w|])
    decreases |s|
  {
    if |s| == 0 || IsSpace(s[0]) then "" else [s[0]] + LeadingWord(s[1..])
  }

  /** `s.split()`: the maximal runs of non-whitespace characters, in order. */
  function Split(s: string): (tokens: seq<string>)
    ensures forall i :: 0 <= i < |tokens| ==> IsWord(tokens[i])
    decreases |s|
  {
    if |s| == 0 then []
    else if IsSpace(s[0]) then Split(s[1..])
    else var w := LeadingWord(s); [w] + Split(s[|w|..])
  }

  /** Tokens joined by single spaces and closed by a newline, as a values line is
      written. */
  function Line(tokens: seq<string>): string {
    if |tokens| == 0 then "\n" else tokens[0] + " " + Line(tokens[1..])
  }

  lemma LeadingWordOf(w: string, rest: string)
    requires forall i :: 0 <= i < |w| ==> !IsSpace(w[i])
    requires |rest| > 0 && IsSpace(rest[0])
    ensures LeadingWord(w + rest) == w
    decreases |w|
  {
    if |w| > 0 {
      assert (w + rest)[1..] == w[1..] + rest;
      LeadingWordOf(w[1..], rest);
    }
  }

  /** Splitting a written values line gives back its tokens. */
  lemma {:induction false} SplitLine(tokens: seq<string>)
    requires forall i :: 0 <= i < |tokens| ==> IsWord(tokens[i])
    ensures Split(Line(tokens)) == tokens
    decreases |tokens|
  {
    if |tokens| == 0 {
      assert Split("\n") == Split("");
    } else {
      var w, rest := tokens[0], Line(tokens[1..]);
      assert Line(tokens) == w + (" " + rest);
      LeadingWordOf(w, " " + rest);
      assert (w + (" " + rest))[|w|..] == " " + rest;
      assert (" " + rest)[1..] == rest;
      SplitLine(tokens[1..]);
    }
  }

  /** `[float(s) for s in tokens]`: the values, or the first token float() rejects. */
  function ParseNumbers(tokens: seq<string>, toReal: string -> Option<real>): (r: Result<seq<real>, string>)
    ensures r.Ok? ==> |r.value| == |tokens| && forall i :: 0 <= i < |tokens| ==> toReal(tokens[i]) == Some(r.value[i])
    ensures r.Err? ==> r.error in tokens && toReal(r.error).None?
    ensures r.Err? ==> exists i :: 0 <= i < |tokens| && r.error == tokens[i] && toReal(tokens[i]).None?
                                   && forall j :: 0 <= j < i ==> toReal(tokens[j]).Some?
    decreases |tokens|
  {
    if |tokens| == 0 then Ok([])
    else match toReal(tokens[0])
      case None => Err(tokens[0])
      case Some(v) =>
        match ParseNumbers(tokens[1..], toReal)
        case Err(t) => Err(t)
        case Ok(vs) => Ok([v] + vs)
  }

  // ---------------------------------------------------------------------------
  // The configuration file

  datatype Gains = Gains(p: real, d: real, i: real, il: real)

  datatype PwmRange = PwmRange(min: real, max: real)

  /** The values the configuration file sets; None until its section is read. */
  datatype Settings = Settings(
    pitch: Option<Gains>, roll: Option<Gains>, yaw: Option<Gains>,
    maxP: Option<real>, maxR: Option<real>, maxDy: Option<real>,
    pwmRange: Option<PwmRange>, pwmFreq: Option<real>, deadBand: Option<real>, thrCut: Option<real>)

  const NoSettings := Settings(None, None, None, None, None, None, None, None, None, None)

  /** The reader between two lines: the armed section (0 for none) and the values so far. */
  datatype Reader = Reader(flag: int, settings: Settings)

  predicate IsSection(k: int) { 1 <= k <= 10 }

  /** The header line of each section, newline included. */
  function Header(k: int): string
    requires IsSection(k)
  {
    match k
    case 1 => "PITCH_PID\n"
    case 2 => "ROLL_PID\n"
    case 3 => "YAW_PID\n"
    case 4 => "MAX_PITCH\n"
    case 5 => "MAX_ROLL\n"
    case 6 => "MAX_YAWRATE\n"
    case 7 => "PWM_RANGE\n"
    case 8 => "PWM_FREQ\n"
    case 9 => "DEAD_BAND\n"
    case 10 => "THR_CUT\n"
  }

  /** How many numbers a section's values line must hold. */
  function ValueCount(k: int): nat
    requires IsSection(k)
  {
    if k <= 3 then 4 else if k == 7 then 2 else 1
  }

  /** The exit message of a values line with the wrong number of values. */
  function SectionMessage(k: int): string
    requires IsSection(k)
  {
    match k
    case 1 => "Error reading PITCH_PID values!"
    case 2 => "Error reading ROLL_PID values!"
    case 3 => "Error reading YAW_PID values!"
    case 4 => "Error reading MAX_PITCH value!"
    case 5 => "Error reading MAX_ROLL value!"
    case 6 => "Error reading MAX_YAWRATE value!"
    case 7 => "Error reading PWM_RANGE value!"
    case 8 => "Error reading PWM_FREQ value!"
    case 9 => "Error reading DEAD_BAND value!"
    case 10 => "Error reading THR_CUT value!"
  }

  /** The settings after section k's values line. */
  function Assign(s: Settings, k: int, v: seq<real>): Settings
    requires IsSection(k) && |v| == ValueCount(k)
  {
    match k
    case 1 => s.(pitch := Some(Gains(v[0], v[1], v[2], v[3])))
    case 2 => s.(roll := Some(Gains(v[0], v[1], v[2], v[3])))
    case 3 => s.(yaw := Some(Gains(v[0], v[1], v[2], v[3])))
    case 4 => s.(maxP := Some(v[0]))
    case 5 => s.(maxR := Some(v[0]))
    case 6 => s.(maxDy := Some(v[0]))
    case 7 => s.(pwmRange := Some(PwmRange(v[0], v[1])))
    case 8 => s.(pwmFreq := Some(v[0]))
    case 9 => s.(deadBand := Some(v[0]))
    case 10 => s.(thrCut := Some(v[0]))
  }

  /** Comment lines and bare newlines are passed over. */
  predicate Skipped(line: string)
    requires |line| > 0
  {
    line[0] == '#' || line == "\n"
  }

  /** The branch of the elif chain a line takes: the first section k from `from` on
      whose header the line is or which is armed. */
  function Branch(line: string, flag: int, from: int): (r: Option<int>)
    requires 1 <= from <= 11
    ensures r.Some? ==> from <= r.value <= 10 && (line == Header(r.value) || flag == r.value)
    ensures forall j :: from <= j <= 10 && (r.None? || j < r.value) ==> line != Header(j) && flag != j
    decreases 11 - from
  {
    if from == 11 then None
    else if line == Header(from) || flag == from then Some(from)
    else Branch(line, flag, from + 1)
  }

  /** One pass of the `for line in file1` loop. */
  function ConsumeLine(r: Reader, line: string, toReal: string -> Option<real>): Result<Reader, ConfigError> {
    if |line| == 0 then Err(EmptyLine)
    else if Skipped(line) then Ok(r)
    else match Branch(line, r.flag, 1)
      case None => Err(Exit(UnknownLineMessage))
      case Some(k) =>
        if r.flag != k then Ok(r.(flag := k))
        else match ParseNumbers(Split(line), toReal)
          case Err(t) => Err(ValueError(t))
          case Ok(v) =>
            if |v| == ValueCount(k) then Ok(Reader(0, Assign(r.settings, k, v)))
            else Err(Exit(SectionMessage(k)))
  }

  /** The whole loop over the lines, stopping at the first error. */
  function ConsumeLines(r: Reader, lines: seq<string>, toReal: string -> Option<real>): Result<Reader, ConfigError>
    decreases |lines|
  {
    if |lines| == 0 then Ok(r)
    else match ConsumeLines(r, lines[..|lines| - 1], toReal)
      case Err(e) => Err(e)
      case Ok(r') => ConsumeLine(r', lines[|lines| - 1], toReal)
  }

  // ---------------------------------------------------------------------------

  /** The ten headers are different lines. */
  lemma HeadersDistinct(j: int, k: int)
    requires IsSection(j) && IsSection(k) && j != k
    ensures Header(j) != Header(k)
  {
    if |Header(j)| == |Header(k)| {
      assert Header(j)[0] != Header(k)[0] || Header(j)[1] != Header(k)[1];
    }
  }

  /** Comments and blank lines change nothing, even between a header and its values. */
  lemma SkippedLineKeepsReader(r: Reader, line: string, toReal: string -> Option<real>)
    requires |line| > 0 && (line[0] == '#' || line == "\n")
    ensures ConsumeLine(r, line, toReal) == Ok(r)
  {
  }

  /** With no section armed, a header arms its section and assigns nothing. */
  lemma HeaderArms(r: Reader, k: int, toReal: string -> Option<real>)
    requires r.flag == 0 && IsSection(k)
    ensures ConsumeLine(r, Header(k), toReal) == Ok(r.(flag := k))
  {
    forall j | 1 <= j < k
      ensures Header(k) != Header(j)
    {
      HeadersDistinct(j, k);
    }
    assert Header(k)[0] != '#' && Header(k) != "\n";
  }

  /** While section k is armed, a header of an earlier section re-arms that section
      instead of being read as k's values: the elif chain tests section j first. */
  lemma EarlierHeaderPreempts(r: Reader, j: int, toReal: string -> Option<real>)
    requires IsSection(r.flag) && IsSection(j) && j < r.flag
    ensures ConsumeLine(r, Header(j), toReal) == Ok(r.(flag := j))
  {
    forall i | 1 <= i < j
      ensures Header(j) != Header(i)
    {
      HeadersDistinct(i, j);
    }
    assert Header(j)[0] != '#' && Header(j) != "\n";
  }

  /** While section k is armed, any other line (not a comment, not an earlier header)
      is k's values line: k's fields are assigned in order and the flag drops to 0 when
      the count is right, and the program stops with k's message when it is not. */
  lemma ValuesLine(r: Reader, line: string, toReal: string -> Option<real>)
    requires IsSection(r.flag) && |line| > 0 && !Skipped(line)
    requires forall j :: 1 <= j < r.flag ==> line != Header(j)
    ensures var p := ParseNumbers(Split(line), toReal);
            var c := ConsumeLine(r, line, toReal);
            && (p.Err? ==> c == Err(ValueError(p.error)))
            && (p.Ok? && |p.value| == ValueCount(r.flag) ==> c == Ok(Reader(0, Assign(r.settings, r.flag, p.value))))
            && (p.Ok? && |p.value| != ValueCount(r.flag) ==> c == Err(Exit(SectionMessage(r.flag))))
  {
    assert Branch(line, r.flag, 1) == Some(r.flag);
  }

  /** With no section armed, a line that is neither skipped nor a header stops the
      program; so does the "Pitch PID" spelling of the header comment. */
  lemma UnknownLine(r: Reader, line: string, toReal: string -> Option<real>)
    requires r.flag == 0 && |line| > 0 && !Skipped(line)
    ensures ConsumeLine(r, line, toReal) == Err(Exit(UnknownLineMessage))
            <==> forall k :: IsSection(k) ==> line != Header(k)
  {
    if exists k :: IsSection(k) && line == Header(k) {
      var k :| IsSection(k) && line == Header(k);
      assert Branch(line, 0, 1).Some?;
    }
  }

  /** The numbers section k holds, in the order its values line lists them: p, d, i,
      il for the PID sections, min, max for PWM_RANGE, one number otherwise. */
  function SectionValues(s: Settings, k: int): Option<seq<real>>
    requires IsSection(k)
  {
    match k
    case 1 => if s.pitch.None? then None else Some([s.pitch.value.p, s.pitch.value.d, s.pitch.value.i, s.pitch.value.il])
    case 2 => if s.roll.None? then None else Some([s.roll.value.p, s.roll.value.d, s.roll.value.i, s.roll.value.il])
    case 3 => if s.yaw.None? then None else Some([s.yaw.value.p, s.yaw.value.d, s.yaw.value.i, s.yaw.value.il])
    case 4 => if s.maxP.None? then None else Some([s.maxP.value])
    case 5 => if s.maxR.None? then None else Some([s.maxR.value])
    case 6 => if s.maxDy.None? then None else Some([s.maxDy.value])
    case 7 => if s.pwmRange.None? then None else Some([s.pwmRange.value.min, s.pwmRange.value.max])
    case 8 => if s.pwmFreq.None? then None else Some([s.pwmFreq.value])
    case 9 => if s.deadBand.None? then None else Some([s.deadBand.value])
    case 10 => if s.thrCut.None? then None else Some([s.thrCut.value])
  }

  /** Each section stores its values line in order (p, d, i, il for pitch, roll and
      yaw; min, max for PWM_RANGE), leaves every other section as it was, and a
      repeated section overwrites the earlier values. */
  lemma AssignOrder(s: Settings, k: int, v: seq<real>, w: seq<real>)
    requires IsSection(k) && |v| == ValueCount(k) && |w| == ValueCount(k)
    ensures k == 1 ==> Assign(s, k, v).pitch == Some(Gains(v[0], v[1], v[2], v[3]))
    ensures k == 2 ==> Assign(s, k, v).roll == Some(Gains(v[0], v[1], v[2], v[3]))
    ensures k == 3 ==> Assign(s, k, v).yaw == Some(Gains(v[0], v[1], v[2], v[3]))
    ensures k == 7 ==> Assign(s, k, v).pwmRange == Some(PwmRange(v[0], v[1]))
    ensures SectionValues(Assign(s, k, v), k) == Some(v)
    ensures forall j :: IsSection(j) && j != k ==> SectionValues(Assign(s, k, v), j) == SectionValues(s, j)
    ensures Assign(Assign(s, k, v), k, w) == Assign(s, k, w)
  {
    if |v| == 4 {
      assert v == [v[0], v[1], v[2], v[3]];
    } else if |v| == 2 {
      assert v == [v[0], v[1]];
    } else {
      assert v == [v[0]];
    }
  }

  /** The flag stays in 0..10. */
  lemma FlagInRange(r: Reader, line: string, toReal: string -> Option<real>)
    requires 0 <= r.flag <= 10
    ensures ConsumeLine(r, line, toReal).Ok? ==> 0 <= ConsumeLine(r, line, toReal).value.flag <= 10
  {
  }

  /** No header contains a space. */
  lemma HeaderHasNoSpace(k: int, i: int)
    requires IsSection(k) && 0 <= i < |Header(k)|
    ensures Header(k)[i] != ' '
  {
  }

  /** A written values line is neither skipped nor a header. */
  lemma ValuesLineIsNoHeader(tokens: seq<string>)
    requires |tokens| > 0 && IsWord(tokens[0]) && tokens[0][0] != '#'
    ensures var line := Line(tokens);
            |line| > 0 && !Skipped(line) && forall j :: IsSection(j) ==> line != Header(j)
  {
    var line := Line(tokens);
    assert line == tokens[0] + (" " + Line(tokens[1..]));
    assert line[0] == tokens[0][0] && line[|tokens[0]|] == ' ' && |line| > 1;
    forall j | IsSection(j)
      ensures line != Header(j)
    {
      if |Header(j)| > |tokens[0]| {
        HeaderHasNoSpace(j, |tokens[0]|);
      }
    }
  }

  /** A two-line section: its header and a line with the right number of values
      (written with single spaces, the first not starting with '#', which would make
      the line a comment) leave the values assigned and nothing armed. */
  lemma SectionReadsValues(r: Reader, k: int, tokens: seq<string>, v: seq<real>, toReal: string -> Option<real>)
    requires r.flag == 0 && IsSection(k)
    requires |tokens| == ValueCount(k) == |v|
    requires forall i :: 0 <= i < |tokens| ==> IsWord(tokens[i]) && toReal(tokens[i]) == Some(v[i])
    requires |tokens| > 0 && |tokens[0]| > 0 && tokens[0][0] != '#'
    ensures ConsumeLines(r, [Header(k), Line(tokens)], toReal) == Ok(Reader(0, Assign(r.settings, k, v)))
  {
    var line := Line(tokens);
    var armed := r.(flag := k);
    assert ConsumeLines(r, [Header(k)], toReal) == Ok(armed) by {
      HeaderArms(r, k, toReal);
    }
    assert ConsumeLine(armed, line, toReal) == Ok(Reader(0, Assign(r.settings, k, v))) by {
      SplitLine(tokens);
      assert ParseNumbers(tokens, toReal).value == v;
      ValuesLineIsNoHeader(tokens);
      ValuesLine(armed, line, toReal);
    }
    assert [Header(k), line][..1] == [Header(k)];
  }

  // ---------------------------------------------------------------------------
  // The calibration files

  /** The calibration values the controller uses. */
  datatype Calibration = Calibration(
    cmaxR: real, cmaxP: real, cmaxDy: real, cdeadBand: real,
    rcn: real, pcn: real, ycn: real, tmin: real,
    rm: real, rbl: real, rbh: real, pm: real, pbl: real, pbh: real,
    ym: real, ybl: real, ybh: real)

  /** The magnetometer hard-iron offsets. */
  datatype MagCalibration = MagCalibration(hix: real, hiy: real, hiz: real)

  /** The calibration file: tokens 0..5, 7, 10 and 16..24; a file that cannot be
      opened, a token float() rejects and fewer than 25 tokens all end in the same
      exit. */
  function ReadCalibration(text: Option<string>, toReal: string -> Option<real>): Result<Calibration, ConfigError> {
    if text.None? then Err(Exit(NoCalibrationMessage))
    else match ParseNumbers(Split(text.value), toReal)
      case Err(_) => Err(Exit(NoCalibrationMessage))
      case Ok(d) =>
        if |d| < 25 then Err(Exit(NoCalibrationMessage))
        else Ok(Calibration(d[0], d[1], d[2], d[3], d[4], d[5], d[7], d[10],
                            d[16], d[17], d[18], d[19], d[20], d[21], d[22], d[23], d[24]))
  }

  /** The magnetometer file: its first three tokens. */
  function ReadMagnetometer(text: Option<string>, toReal: string -> Option<real>): Result<MagCalibration, ConfigError> {
    if text.None? then Err(Exit(NoMagnetometerMessage))
    else match ParseNumbers(Split(text.value), toReal)
      case Err(_) => Err(Exit(NoMagnetometerMessage))
      case Ok(d) =>
        if |d| < 3 then Err(Exit(NoMagnetometerMessage)) else Ok(MagCalibration(d[0], d[1], d[2]))
  }

  /** `calibration_check`: the first of the four pairs (cmax_p, max_p), (cmax_r,
      max_r), (cmax_dy, max_dy), (cdead_band, dead_band) that differs stops the
      program; a value read before it was set raises. */
  function CheckCalibration(cal: Option<Calibration>, s: Settings): Result<(), ConfigError> {
    if cal.None? || s.maxP.None? then Err(MissingAttribute)
    else if cal.value.cmaxP != s.maxP.value then Err(Exit(MismatchMessage))
    else if s.maxR.None? then Err(MissingAttribute)
    else if cal.value.cmaxR != s.maxR.value then Err(Exit(MismatchMessage))
    else if s.maxDy.None? then Err(MissingAttribute)
    else if cal.value.cmaxDy != s.maxDy.value then Err(Exit(MismatchMessage))
    else if s.deadBand.None? then Err(MissingAttribute)
    else if cal.value.cdeadBand != s.deadBand.value then Err(Exit(MismatchMessage))
    else Ok(())
  }

  /** The calibration file is read exactly when it opens and holds at least 25
      numbers; each field is the number at its fixed position. */
  lemma CalibrationPositions(text: Option<string>, toReal: string -> Option<real>)
    ensures var c := ReadCalibration(text, toReal);
            && (c.Ok? <==> text.Some? && ParseNumbers(Split(text.value), toReal).Ok?
                           && |ParseNumbers(Split(text.value), toReal).value| >= 25)
            && (c.Err? ==> c.error == Exit(NoCalibrationMessage))
            && (c.Ok? ==> var d := ParseNumbers(Split(text.value), toReal).value;
                          c.value == Calibration(d[0], d[1], d[2], d[3], d[4], d[5], d[7], d[10], d[16],
                                                 d[17], d[18], d[19], d[20], d[21], d[22], d[23], d[24]))
  {
  }

  /** Numbers at the unused positions 6, 8, 9, 11..15 and from 25 on do not matter. */
  lemma CalibrationIgnoresUnused(t1: string, t2: string, toReal: string -> Option<real>)
    requires ParseNumbers(Split(t1), toReal).Ok? && ParseNumbers(Split(t2), toReal).Ok?
    requires var d1, d2 := ParseNumbers(Split(t1), toReal).value, ParseNumbers(Split(t2), toReal).value;
             && |d1| >= 25 && |d2| >= 25
             && d1[..6] == d2[..6] && d1[7] == d2[7] && d1[10] == d2[10] && d1[16..25] == d2[16..25]
    ensures ReadCalibration(Some(t1), toReal) == ReadCalibration(Some(t2), toReal)
  {
    var d1, d2 := ParseNumbers(Split(t1), toReal).value, ParseNumbers(Split(t2), toReal).value;
    assert forall i :: 0 <= i < 6 ==> d1[i] == d1[..6][i] == d2[..6][i] == d2[i];
    assert forall i :: 16 <= i < 25 ==> d1[i] == d1[16..25][i - 16] == d2[16..25][i - 16] == d2[i];
  }

  /** The magnetometer file is read exactly when it opens and holds at least three
      numbers, which become the three offsets. */
  lemma MagnetometerPositions(text: Option<string>, toReal: string -> Option<real>)
    ensures var m := ReadMagnetometer(text, toReal);
            && (m.Ok? <==> text.Some? && ParseNumbers(Split(text.value), toReal).Ok?
                           && |ParseNumbers(Split(text.value), toReal).value| >= 3)
            && (m.Err? ==> m.error == Exit(NoMagnetometerMessage))
            && (m.Ok? ==> var d := ParseNumbers(Split(text.value), toReal).value;
                          m.value == MagCalibration(d[0], d[1], d[2]))
  {
  }

  /** With everything read, the check passes exactly when the four pairs agree, and
      otherwise stops with the mismatch message. */
  lemma CheckPassesIffMatching(cal: Calibration, s: Settings)
    requires s.maxP.Some? && s.maxR.Some? && s.maxDy.Some? && s.deadBand.Some?
    ensures CheckCalibration(Some(cal), s).Ok? <==>
              && cal.cmaxP == s.maxP.value && cal.cmaxR == s.maxR.value
              && cal.cmaxDy == s.maxDy.value && cal.cdeadBand == s.deadBand.value
    ensures CheckCalibration(Some(cal), s).Err? ==> CheckCalibration(Some(cal), s).error == Exit(MismatchMessage)
  {
  }

  // ---------------------------------------------------------------------------

  /** The reader object: the file names, the section flag, and what has been read. */
  class ReadConfigFile {
    const fileName1: string
    const fileName2: string
    const fileName3: string
    var flag: int
    var settings: Settings
    var calibration: Option<Calibration>
    var magnetometer: Option<MagCalibration>

    function State(): Reader
      reads this
    {
      Reader(flag, settings)
    }

    constructor (fileName1: string, fileName2: string, fileName3: string)
      ensures this.fileName1 == fileName1 && this.fileName2 == fileName2 && this.fileName3 == fileName3
      ensures State() == Reader(0, NoSettings) && calibration == None && magnetometer == None
    {
      this.fileName1, this.fileName2, this.fileName3 := fileName1, fileName2, fileName3;
      flag := 0;
      settings := NoSettings;
      calibration := None;
      magnetometer := None;
    }

    /** `read_configuration_file` over the file's lines. On success the flag and the
        values are those `ConsumeLines` computes; on an error it returns the error of
        `ConsumeLines` and the program stops. */
    method ReadConfigurationFile(lines: seq<string>, toReal: string -> Option<real>)
      returns (r: Result<(), ConfigError>)
      modifies this
      ensures ConsumeLines(old(State()), lines, toReal).Ok? ==>
                r.Ok? && State() == ConsumeLines(old(State()), lines, toReal).value
      ensures ConsumeLines(old(State()), lines, toReal).Err? ==>
                r == Err(ConsumeLines(old(State()), lines, toReal).error)
      ensures calibration == old(calibration) && magnetometer == old(magnetometer)
    {
      ghost var start := State();
      var i := 0;
      while i < |lines|
        invariant 0 <= i <= |lines|
        invariant ConsumeLines(start, lines[..i], toReal) == Ok(State())
        invariant calibration == old(calibration) && magnetometer == old(magnetometer)
      {
        assert lines[..i + 1][..i] == lines[..i];
        match ConsumeLine(State(), lines[i], toReal) {
          case Err(e) =>
            ConsumeLinesStops(start, lines, i + 1, toReal);
            return Err(e);
          case Ok(next) =>
            flag, settings := next.flag, next.settings;
        }
        i := i + 1;
      }
      assert lines[..i] == lines;
      r := Ok(());
    }

    /** `read_calibration_file` on the file's text (None when it cannot be opened). */
    method ReadCalibrationFile(text: Option<string>, toReal: string -> Option<real>)
      returns (r: Result<(), ConfigError>)
      modifies this
      ensures var c := ReadCalibration(text, toReal);
              && (c.Ok? ==> r.Ok? && calibration == Some(c.value))
              && (c.Err? ==> r == Err(c.error) && calibration == old(calibration))
      ensures State() == old(State()) && magnetometer == old(magnetometer)
    {
      match ReadCalibration(text, toReal)
      case Err(e) =>
        return Err(e);
      case Ok(c) =>
        calibration := Some(c);
        return Ok(());
    }

    /** `read_magnetometer_calibration_file` on the file's text. */
    method ReadMagnetometerFile(text: Option<string>, toReal: string -> Option<real>)
      returns (r: Result<(), ConfigError>)
      modifies this
      ensures var m := ReadMagnetometer(text, toReal);
              && (m.Ok? ==> r.Ok? && magnetometer == Some(m.value))
              && (m.Err? ==> r == Err(m.error) && magnetometer == old(magnetometer))
      ensures State() == old(State()) && calibration == old(calibration)
    {
      match ReadMagnetometer(text, toReal)
      case Err(e) =>
        return Err(e);
      case Ok(m) =>
        magnetometer := Some(m);
        return Ok(());
    }

    /** `calibration_check`; it changes nothing. It passes exactly when both files
        were read and the four pairs agree; a mismatch with every value present exits. */
    method CalibrationCheck() returns (r: Result<(), ConfigError>)
      ensures r == CheckCalibration(calibration, settings)
      ensures r.Ok? <==>
                && calibration.Some?
                && settings.maxP == Some(calibration.value.cmaxP) && settings.maxR == Some(calibration.value.cmaxR)
                && settings.maxDy == Some(calibration.value.cmaxDy)
                && settings.deadBand == Some(calibration.value.cdeadBand)
      ensures r.Err? ==> r.error == MissingAttribute || r.error == Exit(MismatchMessage)
      ensures (r.Err? && calibration.Some? && settings.maxP.Some? && settings.maxR.Some?
               && settings.maxDy.Some? && settings.deadBand.Some?) ==> r.error == Exit(MismatchMessage)
    {
      if calibration.None? || settings.maxP.None? {
        return Err(MissingAttribute);
      }
      var cal := calibration.value;
      if cal.cmaxP != settings.maxP.value {
        return Err(Exit(MismatchMessage));
      }
      if settings.maxR.None? {
        return Err(MissingAttribute);
      }
      if cal.cmaxR != settings.maxR.value {
        return Err(Exit(MismatchMessage));
      }
      if settings.maxDy.None? {
        return Err(MissingAttribute);
      }
      if cal.cmaxDy != settings.maxDy.value {
        return Err(Exit(MismatchMessage));
      }
      if settings.deadBand.None? {
        return Err(MissingAttribute);
      }
      if cal.cdeadBand != settings.deadBand.value {
        return Err(Exit(MismatchMessage));
      }
      r := Ok(());
    }
  }

  /** Once a line fails, the whole loop fails with that line's error. */
  lemma {:induction false} ConsumeLinesStops(r: Reader, lines: seq<string>, n: nat, toReal: string -> Option<real>)
    requires 1 <= n <= |lines|
    requires ConsumeLines(r, lines[..n - 1], toReal).Ok?
    requires ConsumeLine(ConsumeLines(r, lines[..n - 1], toReal).value, lines[n - 1], toReal).Err?
    ensures ConsumeLines(r, lines, toReal)
         == ConsumeLine(ConsumeLines(r, lines[..n - 1], toReal).value, lines[n - 1], toReal)
    decreases |lines|
  {
    if n < |lines| {
      var init := lines[..|lines| - 1];
      assert init[..n - 1] == lines[..n - 1] && init[n - 1] == lines[n - 1];
      ConsumeLinesStops(r, init, n, toReal);
    } else {
      assert lines[..n - 1] == lines[..|lines| - 1];
    }
  }
}
