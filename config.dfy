/** The text the camera object reads and writes: the six-line parameter file, the paths of the
    calibration maps, and the capture time stamp. */
module Config {
  import opened Wrappers
  import opened Text

  // ----- The parameter file -----

  /** A text file as `getline` sees it: its lines without their line breaks, and whether the
      last line ends with one. The type does not exclude a `'\n'` inside a line; no property
      below depends on that. */
  datatype TextFile = TextFile(lines: seq<string>, newlineTerminated: bool)

  /** What the k-th `getline` call leaves in its string. Past the end, the first failing call
      clears the string and later calls leave it alone, so it stays empty; but when the last
      line has no line break, reading it already hits the end of file and every later call leaves
      that last line in place. */
  function Line(f: TextFile, k: nat): string {
    if k < |f.lines| then f.lines[k]
    else if f.lines == [] || f.newlineTerminated then ""
    else f.lines[|f.lines| - 1]
  }

  /** The name of the parameter file inside the configuration directory. */
  function ConfigFilePath(configPath: string): string {
    configPath + "genparam.cfg"
  }

  /** The settings the parameter file provides, one per line in this order. */
  datatype CameraConfig = CameraConfig(
    dataPath: string,
    autoExpTimeCont: bool,
    autoGainCont: bool,
    exposureTime: real,
    gain: int,
    pathCal: string)

  /** The token of line k: the text after its last colon. */
  function Setting(f: TextFile, k: nat): string {
    TokenOf(Line(f, k))
  }

  /** The settings read from `f`. The two paths are read as words, and keep their previous value
      when the line holds no word; the flags are true when the integer read is nonzero; the
      exposure time and the gain are read with the stream extractions `readReal` and `readInt64`,
      left abstract. */
  function ReadConfig(f: TextFile, prior: CameraConfig, readReal: string -> real, readInt64: string -> int): CameraConfig {
    CameraConfig(
      FirstWord(Setting(f, 0)).GetOr(prior.dataPath),
      ExtractInt(Setting(f, 1)) != 0,
      ExtractInt(Setting(f, 2)) != 0,
      readReal(Setting(f, 3)),
      readInt64(Setting(f, 4)),
      FirstWord(Setting(f, 5)).GetOr(prior.pathCal))
  }

  /** The reading itself, one line after the other: each line's token goes through a fresh
      string stream into its setting. */
  method ReadSettings(f: TextFile, prior: CameraConfig, readReal: string -> real, readInt64: string -> int)
    returns (c: CameraConfig)
    ensures c == ReadConfig(f, prior, readReal, readInt64)
  {
    c := prior;
    var token := TokenOf(Line(f, 0));
    c := c.(dataPath := FirstWord(token).GetOr(c.dataPath));
    token := TokenOf(Line(f, 1));
    var val := ExtractInt(token);
    c := c.(autoExpTimeCont := val != 0);
    token := TokenOf(Line(f, 2));
    val := ExtractInt(token);
    c := c.(autoGainCont := val != 0);
    token := TokenOf(Line(f, 3));
    c := c.(exposureTime := readReal(token));
    token := TokenOf(Line(f, 4));
    c := c.(gain := readInt64(token));
    token := TokenOf(Line(f, 5));
    c := c.(pathCal := FirstWord(token).GetOr(c.pathCal));
  }

  /** A value that can be written after a colon and read back as a word. */
  predicate IsWord(w: string) {
    w != [] && NoSpaces(w) && ':' !in w
  }

  /** The flag as the file writes it: the integer 1 or 0. */
  function FlagText(b: bool): string {
    SignedDecimal(if b then 1 else 0)
  }

  /** A file of `key:value` lines, ending with a line break. */
  function KeyValueFile(keys: seq<string>, values: seq<string>): (f: TextFile)
    requires |keys| == |values|
    ensures |f.lines| == |keys|
  {
    TextFile(seq(|keys|, i requires 0 <= i < |keys| => keys[i] + ":" + values[i]), true)
  }

  /** The values a file written from `c` holds, one per setting. */
  function ConfigValues(c: CameraConfig, exposureText: string, gainText: string): seq<string> {
    [c.dataPath, FlagText(c.autoExpTimeCont), FlagText(c.autoGainCont), exposureText, gainText, c.pathCal]
  }

  /** A parameter file laid out as `key:value` lines, one per setting. */
  function RenderConfig(keys: seq<string>, c: CameraConfig, exposureText: string, gainText: string): TextFile
    requires |keys| == 6
  {
    KeyValueFile(keys, ConfigValues(c, exposureText, gainText))
  }

  /** The token of a `key:value` line is its value. */
  lemma SettingOfKeyValue(keys: seq<string>, values: seq<string>, k: nat)
    requires |keys| == |values| && k < |keys| && ':' !in values[k]
    ensures Setting(KeyValueFile(keys, values), k) == values[k]
  {
    TokenOfKeyValue(keys[k], values[k]);
  }

  /** A flag written as 0 or 1 reads back as written. */
  lemma FlagRoundTrip(b: bool)
    ensures (ExtractInt(FlagText(b)) != 0) == b
  {
    ExtractIntOfSignedDecimal(if b then 1 else 0);
  }

  /** Reading a file written as `key:value` lines gives back every setting: the paths and the
      flags exactly, the exposure time and the gain as their extractions of the written text, and
      this whatever the keys are and whatever was set before. */
  lemma ReadConfigOfRendered(keys: seq<string>, c: CameraConfig, exposureText: string, gainText: string,
                             prior: CameraConfig, readReal: string -> real, readInt64: string -> int)
    requires |keys| == 6 && IsWord(c.dataPath) && IsWord(c.pathCal)
    requires ':' !in exposureText && ':' !in gainText
    ensures ReadConfig(RenderConfig(keys, c, exposureText, gainText), prior, readReal, readInt64)
         == c.(exposureTime := readReal(exposureText), gain := readInt64(gainText))
  {
    var f := RenderConfig(keys, c, exposureText, gainText);
    assert Setting(f, 0) == c.dataPath && Setting(f, 1) == FlagText(c.autoExpTimeCont)
      && Setting(f, 2) == FlagText(c.autoGainCont) && Setting(f, 3) == exposureText
      && Setting(f, 4) == gainText && Setting(f, 5) == c.pathCal by {
      RenderedSettings(keys, c, exposureText, gainText);
    }
    ReadConfigOfSettings(f, c, exposureText, gainText, prior, readReal, readInt64);
  }

  /** Each line of a rendered file has its setting as its token. */
  lemma RenderedSettings(keys: seq<string>, c: CameraConfig, exposureText: string, gainText: string)
    requires |keys| == 6 && ':' !in c.dataPath && ':' !in c.pathCal
    requires ':' !in exposureText && ':' !in gainText
    ensures forall k :: 0 <= k < 6 ==>
      Setting(RenderConfig(keys, c, exposureText, gainText), k) == ConfigValues(c, exposureText, gainText)[k]
  {
    var values := ConfigValues(c, exposureText, gainText);
    forall k | 0 <= k < 6 ensures Setting(KeyValueFile(keys, values), k) == values[k] {
      SettingOfKeyValue(keys, values, k);
    }
  }

  lemma ReadConfigOfSettings(f: TextFile, c: CameraConfig, exposureText: string, gainText: string,
                             prior: CameraConfig, readReal: string -> real, readInt64: string -> int)
    requires IsWord(c.dataPath) && IsWord(c.pathCal)
    requires Setting(f, 0) == c.dataPath && Setting(f, 1) == FlagText(c.autoExpTimeCont)
    requires Setting(f, 2) == FlagText(c.autoGainCont) && Setting(f, 3) == exposureText
    requires Setting(f, 4) == gainText && Setting(f, 5) == c.pathCal
    ensures ReadConfig(f, prior, readReal, readInt64) == c.(exposureTime := readReal(exposureText), gain := readInt64(gainText))
  {
    FirstWordOfWord(c.dataPath);
    FirstWordOfWord(c.pathCal);
    FlagRoundTrip(c.autoExpTimeCont);
    FlagRoundTrip(c.autoGainCont);
  }

  /** A path line that holds no word leaves the path as it was; a line without any colon is taken
      whole. */
  lemma ReadConfigKeepsPathWithoutWord(f: TextFile, prior: CameraConfig, readReal: string -> real, readInt64: string -> int)
    requires forall i :: 0 <= i < |Setting(f, 0)| ==> IsSpace(Setting(f, 0)[i])
    ensures ReadConfig(f, prior, readReal, readInt64).dataPath == prior.dataPath
  {
    FirstWordIsLeadingWord(Setting(f, 0));
  }

  // ----- Calibration maps -----

  /** The two remapping tables of a camera. */
  datatype MapFile = Map1 | Map2

  function MapFileName(m: MapFile): string {
    match m
    case Map1 => "/map1.xml"
    case Map2 => "/map2.xml"
  }

  /** The file holding map `m` of the camera with serial number `serial`. */
  function CalibrationPath(pathCal: string, serial: string, m: MapFile): string {
    pathCal + "calibration_" + serial + MapFileName(m)
  }

  /** The path is the calibration directory, then `calibration_`, the serial number and the
      map's file name, each in its own stretch of the path. */
  lemma CalibrationPathLayout(pathCal: string, serial: string, m: MapFile)
    ensures var p := CalibrationPath(pathCal, serial, m);
      && |p| == |pathCal| + 12 + |serial| + 9
      && p[..|pathCal|] == pathCal
      && p[|pathCal|..|pathCal| + 12] == "calibration_"
      && p[|pathCal| + 12..|p| - 9] == serial && p[|p| - 9..] == MapFileName(m)
  {
    var p := CalibrationPath(pathCal, serial, m);
    assert p == ((pathCal + "calibration_") + serial) + MapFileName(m);
  }

  /** Different cameras, or different tables of one camera, never share a file. */
  lemma CalibrationPathInjective(pathCal: string, s1: string, m1: MapFile, s2: string, m2: MapFile)
    requires CalibrationPath(pathCal, s1, m1) == CalibrationPath(pathCal, s2, m2)
    ensures s1 == s2 && m1 == m2
  {
    CalibrationPathLayout(pathCal, s1, m1);
    CalibrationPathLayout(pathCal, s2, m2);
    var p := CalibrationPath(pathCal, s1, m1);
    assert MapFileName(m1)[5] == p[|p| - 4] == MapFileName(m2)[5];
  }

  // ----- Capture time stamps -----

  /** A `gettimeofday` reading: the `strftime` text of its seconds and its microseconds. A real
      reading has `usec` below one million; the stamp is defined, and its properties proved, for
      every count. */
  datatype TimeVal = TimeVal(localTime: string, usec: nat)

  /** The split of the microseconds into milliseconds and the remaining microseconds. */
  function SplitMicros(usec: nat): (r: (nat, nat))
    ensures r.0 * 1000 + r.1 == usec && r.1 < 1000
    ensures usec < 1000000 ==> r.0 < 1000
  {
    (usec / 1000, usec % 1000)
  }

  /** `StampTime`: the local time, then the milliseconds and the microseconds, separated by
      colons. Both parts are below 1000 for a microsecond count below one second, so the
      conversions to `int` do not change them. */
  function StampTime(t: TimeVal): string {
    StampText(t.localTime, SplitMicros(t.usec).0, SplitMicros(t.usec).1)
  }

  /** The text of a stamp with parts `milli` and `micro`. */
  function StampText(localTime: string, milli: nat, micro: nat): string {
    localTime + ":" + Decimal(milli) + ":" + Decimal(micro)
  }

  /** The stamp can be taken apart again: its last token is the microsecond part, and the token
      before that the millisecond part. */
  lemma {:induction false} StampTextFields(localTime: string, milli: nat, micro: nat)
    ensures var s := StampText(localTime, milli, micro);
      TokenOf(s) == Decimal(micro)
      && |s| > |Decimal(micro)|
      && s[..|s| - |Decimal(micro)| - 1] == localTime + ":" + Decimal(milli)
      && TokenOf(s[..|s| - |Decimal(micro)| - 1]) == Decimal(milli)
  {
    var milliText, microText := Decimal(milli), Decimal(micro);
    var s := StampText(localTime, milli, micro);
    assert s == (localTime + ":" + milliText) + ":" + microText;
    TokenOfKeyValue(localTime + ":" + milliText, microText);
    assert s[..|s| - |microText| - 1] == localTime + ":" + milliText;
    TokenOfKeyValue(localTime, milliText);
  }

  /** Reads the two numeric parts back from a stamp: the last token, and the token before it. */
  function ReadStamp(s: string): (int, int) {
    var microText := TokenOf(s);
    if |microText| < |s| then
      (ParseDecimal(TokenOf(s[..|s| - |microText| - 1])), ParseDecimal(microText))
    else (0, ParseDecimal(microText))
  }

  /** Reading a stamp back gives the parts it was printed from. */
  lemma ReadStampOfStampText(localTime: string, milli: nat, micro: nat)
    ensures ReadStamp(StampText(localTime, milli, micro)) == (milli as int, micro as int)
  {
    ReadStampOfStampTextDigits(localTime, milli, micro);
    ParseDecimalOfDecimal(milli);
    ParseDecimalOfDecimal(micro);
  }

  lemma ReadStampOfStampTextDigits(localTime: string, milli: nat, micro: nat)
    ensures ReadStamp(StampText(localTime, milli, micro)) == (ParseDecimal(Decimal(milli)), ParseDecimal(Decimal(micro)))
  {
    StampTextFields(localTime, milli, micro);
    ReadStampOfParts(StampText(localTime, milli, micro), Decimal(milli), Decimal(micro));
  }

  lemma ReadStampOfParts(s: string, milliText: string, microText: string)
    requires TokenOf(s) == microText && |microText| < |s|
    requires TokenOf(s[..|s| - |microText| - 1]) == milliText
    ensures ReadStamp(s) == (ParseDecimal(milliText), ParseDecimal(microText))
  {
  }

  lemma StampTextInjective(localTime: string, milli1: nat, micro1: nat, milli2: nat, micro2: nat)
    requires StampText(localTime, milli1, micro1) == StampText(localTime, milli2, micro2)
    ensures milli1 == milli2 && micro1 == micro2
  {
    ReadStampOfStampText(localTime, milli1, micro1);
    ReadStampOfStampText(localTime, milli2, micro2);
  }

  /** Two readings with the same local time give the same stamp only when they have the same
      microseconds. */
  lemma StampTimeInjective(t1: TimeVal, t2: TimeVal)
    requires t1.localTime == t2.localTime && StampTime(t1) == StampTime(t2)
    ensures t1.usec == t2.usec
  {
    StampTextInjective(t1.localTime, SplitMicros(t1.usec).0, SplitMicros(t1.usec).1, SplitMicros(t2.usec).0, SplitMicros(t2.usec).1);
  }
}
