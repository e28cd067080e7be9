/**
 * The network-settings screen.  Every entry runs a shell command and
 * scrapes its output line by line; what is modelled is that scraping: the
 * text each `fgets` call returns comes in as one element of a sequence of
 * lines, and the screen rows built from it come out.
 *
 * The position arithmetic follows the source exactly, including its
 * `int` positions (`NotFound` is -1) and the `substr` counts that go
 * negative and then mean "the rest of the string".
 */
module GuiWifi {
  import opened CppString
  import opened GuiInput
  import opened Switches

  datatype Option<T> = None | Some(value: T)

  const Slots: nat := 24
  const HiddenNetwork: string := "[Hidden Network]"
  const NoNetworksText: string := "NO NETWORKS COULD BE FOUND."
  const WifiOffFlags: string := "0x1002"
  const EncryptedColor: int := 0xFF7777FF
  const OpenColor: int := 0x77BB77FF
  const StrongColor: int := 0xCE0000FF
  const GoodColor: int := 0xF24207FF
  const FairColor: int := 0x33F207FF
  const WeakColor: int := 0x078DF2FF

  // =====================================================================
  // TURN WIFI ON/OFF

  /**
   * `getWifiState`: the interface counts as off exactly when the text
   * `fgets` reads into its 7-byte buffer from `/sys/class/net/wlan0/flags`
   * is "0x1002".
   */
  function WifiState(flags: string): bool {
    FgetsChunk(flags, 7) != WifiOffFlags
  }

  /** The flags read as off exactly when they begin with "0x1002". */
  lemma WifiOffExactly(flags: string)
    ensures !WifiState(flags) <==> |flags| >= 6 && flags[..6] == WifiOffFlags
  {
    var chunk := FgetsChunk(flags, 7);
    if |flags| >= 6 && flags[..6] == WifiOffFlags {
      var s := flags;
      assert s[0] == '0' && s[1] == 'x' && s[2] == '1' && s[3] == '0' && s[4] == '0' && s[5] == '2';
      assert FgetsChunk(s[5..], 2) == [s[5]];
      assert FgetsChunk(s[4..], 3) == [s[4]] + FgetsChunk(s[5..], 2);
      assert FgetsChunk(s[3..], 4) == [s[3]] + FgetsChunk(s[4..], 3);
      assert FgetsChunk(s[2..], 5) == [s[2]] + FgetsChunk(s[3..], 4);
      assert FgetsChunk(s[1..], 6) == [s[1]] + FgetsChunk(s[2..], 5);
      assert chunk == [s[0]] + FgetsChunk(s[1..], 6);
    }
    if chunk == WifiOffFlags {
      assert flags[..6] == chunk;
    }
  }

  /** `switchWan`: the command the switch's save action runs. */
  function WanCommand(on: bool): (command: string)
    ensures on ==> command == "sudo ifconfig wlan0 up"
    ensures !on ==> command == "sudo ifconfig wlan0 down "
  {
    if on then "sudo ifconfig wlan0 up" else "sudo ifconfig wlan0 down "
  }

  /** The "Wifi status" screen: a switch set from `getWifiState`. */
  method OpenWifiToggle(flags: string, theme: SwitchTheme) returns (toggle: SwitchComponent)
    ensures fresh(toggle)
    ensures toggle.state == WifiState(flags)
    ensures toggle.image == ImageFor(toggle.state, theme)
  {
    toggle := new SwitchComponent(false, theme);
    toggle.SetState(WifiState(flags), theme);
  }

  /** Saving the "Wifi status" screen brings the interface up exactly when the switch is on. */
  method SaveWifiToggle(toggle: SwitchComponent) returns (command: string)
    ensures command == "sudo ifconfig wlan0 up" <==> toggle.GetState()
    ensures !toggle.GetState() ==> command == "sudo ifconfig wlan0 down "
  {
    command := WanCommand(toggle.GetState());
  }

  // =====================================================================
  // Field extraction, one line at a time

  /** The position of `pat` in a line known to contain it. */
  function PosOf(line: string, pat: string): (p: nat)
    requires Contains(line, pat)
    ensures OccursAt(line, pat, p)
  {
    Find(line, pat)
  }

  /** An ESSID line can be cut without `substr` throwing. */
  predicate EssidCuttable(line: string) {
    Contains(line, "ESSID") && PosOf(line, "ESSID") + 7 <= |line|
  }

  /** The text between the quotes of `ESSID:"..."`, cut as both wlan0 screens cut it. */
  function EssidText(line: string): string
    requires EssidCuttable(line)
  {
    var rest := line[PosOf(line, "ESSID") + 6..];
    Substr(rest, 1, Find(rest, "\n") - 2)
  }

  /** The network name the scan records: an empty or blank name shows as "[Hidden Network]". */
  function ScanSsid(line: string): (ssid: string)
    requires EssidCuttable(line)
    ensures ssid != "" && ssid != " "
  {
    var name := EssidText(line);
    if name == "" || name == " " then HiddenNetwork else name
  }

  predicate ChannelCuttable(line: string) {
    Contains(line, "Channel") && PosOf(line, "Channel") + 8 <= |line|
  }

  /** What follows `Channel:`, up to the character before the line's end. */
  function ChannelText(line: string): string
    requires ChannelCuttable(line)
  {
    var rest := line[PosOf(line, "Channel") + 8..] + " ";
    Substr(rest, 0, Find(rest, "\n") - 1)
  }

  predicate QualityCuttable(line: string) {
    Contains(line, "Quality") && PosOf(line, "Quality") + 29 <= |line|
  }

  /** The two characters 29 past `Quality`, trimmed at a newline. */
  function ScanQuality(line: string): string
    requires QualityCuttable(line)
  {
    var q := Substr(line, PosOf(line, "Quality") + 29, 2);
    Substr(q, 0, Find(q, "\n") - 1)
  }

  /** Whether a line reports encryption on, off, or says nothing about it. */
  function EncryptionOf(line: string): (e: Option<bool>)
    ensures e == Some(true) <==> Contains(line, "Encryption key:on")
    ensures e == Some(false) <==> !Contains(line, "Encryption key:on") && Contains(line, "Encryption key:off")
  {
    if Contains(line, "Encryption key:on") then Some(true)
    else if Contains(line, "Encryption key:off") then Some(false)
    else None
  }

  /** The category a scan line falls in; the order of the tests is the priority. */
  datatype LineKind = EssidLine | ChannelLine | QualityLine | OtherLine

  function KindOf(line: string): (k: LineKind)
    ensures k == EssidLine <==> Contains(line, "ESSID")
    ensures k == ChannelLine <==> !Contains(line, "ESSID") && Contains(line, "Channel")
    ensures k == QualityLine <==> !Contains(line, "ESSID") && !Contains(line, "Channel") && Contains(line, "Quality")
  {
    if Contains(line, "ESSID") then EssidLine
    else if Contains(line, "Channel") then ChannelLine
    else if Contains(line, "Quality") then QualityLine
    else OtherLine
  }

  /** The scan loop can process the line without `substr` throwing `out_of_range`. */
  predicate ScanCuttable(line: string) {
    match KindOf(line)
    case EssidLine => EssidCuttable(line)
    case ChannelLine => ChannelCuttable(line)
    case QualityLine => QualityCuttable(line)
    case OtherLine => true
  }

  predicate AllScanCuttable(lines: seq<string>) {
    forall i :: 0 <= i < |lines| ==> ScanCuttable(lines[i])
  }

  // =====================================================================
  // CONNECT TO NEW WIFI: the scan

  /** What the scan loop has recorded, category by category, in order. */
  datatype ScanTable = ScanTable(ssids: seq<string>, channels: seq<string>, qualities: seq<string>, encryption: seq<bool>)

  /** The encryption flags after a line: one more when the line says anything about encryption. */
  function WithEncryption(flags: seq<bool>, line: string): seq<bool> {
    match EncryptionOf(line)
    case None => flags
    case Some(on) => flags + [on]
  }

  /** One pass of the scan loop's body. */
  function ScanLine(t: ScanTable, line: string): ScanTable
    requires ScanCuttable(line)
  {
    var flags := WithEncryption(t.encryption, line);
    match KindOf(line)
    case EssidLine => ScanTable(t.ssids + [ScanSsid(line)], t.channels, t.qualities, flags)
    case ChannelLine => ScanTable(t.ssids, t.channels + [ChannelText(line)], t.qualities, flags)
    case QualityLine => ScanTable(t.ssids, t.channels, t.qualities + [ScanQuality(line)], flags)
    case OtherLine => t.(encryption := flags)
  }

  /** The scan loop's body field by field: encryption first, then the first of ESSID, Channel and Quality. */
  lemma ScanLineFields(t: ScanTable, line: string)
    requires ScanCuttable(line)
    ensures Contains(line, "Encryption key:on") ==> ScanLine(t, line).encryption == t.encryption + [true]
    ensures !Contains(line, "Encryption key:on") && Contains(line, "Encryption key:off") ==>
              ScanLine(t, line).encryption == t.encryption + [false]
    ensures !Contains(line, "Encryption key:on") && !Contains(line, "Encryption key:off") ==>
              ScanLine(t, line).encryption == t.encryption
    ensures Contains(line, "ESSID") ==>
              ScanLine(t, line).ssids == t.ssids + [ScanSsid(line)]
              && ScanLine(t, line).channels == t.channels && ScanLine(t, line).qualities == t.qualities
    ensures !Contains(line, "ESSID") && Contains(line, "Channel") ==>
              ScanLine(t, line).ssids == t.ssids
              && ScanLine(t, line).channels == t.channels + [ChannelText(line)] && ScanLine(t, line).qualities == t.qualities
    ensures !Contains(line, "ESSID") && !Contains(line, "Channel") && Contains(line, "Quality") ==>
              ScanLine(t, line).ssids == t.ssids
              && ScanLine(t, line).channels == t.channels && ScanLine(t, line).qualities == t.qualities + [ScanQuality(line)]
    ensures !Contains(line, "ESSID") && !Contains(line, "Channel") && !Contains(line, "Quality") ==>
              ScanLine(t, line).ssids == t.ssids
              && ScanLine(t, line).channels == t.channels && ScanLine(t, line).qualities == t.qualities
  {
  }

  /** The scan loop over all lines. */
  function Scan(lines: seq<string>): ScanTable
    requires AllScanCuttable(lines)
  {
    if lines == [] then ScanTable([], [], [], [])
    else ScanLine(Scan(lines[..|lines| - 1]), lines[|lines| - 1])
  }

  /** The 24-slot arrays hold everything the scan records. */
  predicate FitsSlots(t: ScanTable) {
    |t.ssids| <= Slots && |t.channels| <= Slots && |t.qualities| <= Slots && |t.encryption| <= Slots
  }

  /** How many lines fall in a category. */
  function CountKind(lines: seq<string>, k: LineKind): (n: nat)
    ensures n <= |lines|
  {
    if lines == [] then 0
    else CountKind(lines[..|lines| - 1], k) + (if KindOf(lines[|lines| - 1]) == k then 1 else 0)
  }

  /** How many lines say anything about encryption. */
  function CountEncryption(lines: seq<string>): (n: nat)
    ensures n <= |lines|
  {
    if lines == [] then 0
    else CountEncryption(lines[..|lines| - 1]) + (if EncryptionOf(lines[|lines| - 1]).Some? then 1 else 0)
  }

  /**
   * Each counter is the number of lines of its category, every line is in
   * exactly one category, so no line is recorded in two of the SSID,
   * channel and quality arrays.
   */
  lemma {:induction false} ScanCounts(lines: seq<string>)
    requires AllScanCuttable(lines)
    ensures |Scan(lines).ssids| == CountKind(lines, EssidLine)
    ensures |Scan(lines).channels| == CountKind(lines, ChannelLine)
    ensures |Scan(lines).qualities| == CountKind(lines, QualityLine)
    ensures |Scan(lines).encryption| == CountEncryption(lines)
    ensures CountKind(lines, EssidLine) + CountKind(lines, ChannelLine) + CountKind(lines, QualityLine)
              + CountKind(lines, OtherLine) == |lines|
  {
    if lines != [] {
      ScanCounts(lines[..|lines| - 1]);
    }
  }

  /** The counters only grow: what a prefix of the lines records is a prefix of what all of them record. */
  lemma {:induction false} ScanGrows(lines: seq<string>, n: nat)
    requires AllScanCuttable(lines) && n <= |lines|
    ensures AllScanCuttable(lines[..n])
    ensures var small, big := Scan(lines[..n]), Scan(lines);
            && small.ssids <= big.ssids && small.channels <= big.channels
            && small.qualities <= big.qualities && small.encryption <= big.encryption
    decreases |lines| - n
  {
    if n < |lines| {
      var shorter := lines[..|lines| - 1];
      assert shorter[..n] == lines[..n];
      ScanGrows(shorter, n);
    } else {
      assert lines[..n] == lines;
    }
  }

  /** A line with every category's marker is recorded as a network name only. */
  lemma EssidTakesPriority(t: ScanTable, line: string)
    requires EssidCuttable(line)
    ensures ScanCuttable(line)
    ensures ScanLine(t, line).ssids == t.ssids + [ScanSsid(line)]
    ensures ScanLine(t, line).channels == t.channels && ScanLine(t, line).qualities == t.qualities
  {
  }

  /**
   * The network name of a well-formed `ESSID:"name"` line, newline-terminated
   * as `fgets` leaves it, is the name between the quotes (or
   * "[Hidden Network]" when that is empty or a single blank).
   */
  lemma EssidOfQuotedName(indent: string, name: string)
    requires forall i :: 0 <= i < |name| ==> name[i] != '\n'
    requires forall i :: 0 <= i < |indent| ==> !OccursAt(indent + "ESSID:\"" + name + "\"\n", "ESSID", i)
    ensures var line := indent + "ESSID:\"" + name + "\"\n";
            && EssidCuttable(line)
            && EssidText(line) == name
            && ScanSsid(line) == (if name == "" || name == " " then HiddenNetwork else name)
  {
    var line := indent + "ESSID:\"" + name + "\"\n";
    assert line[|indent|..|indent| + 5] == "ESSID";
    FindFirst(line, "ESSID", |indent|);
    var rest := line[|indent| + 6..];
    assert rest == "\"" + name + "\"\n";
    assert rest[|name| + 2..|name| + 3] == "\n";
    assert forall i :: 1 <= i <= |name| ==> rest[i] == name[i - 1];
    FindByFirstChar(rest, "\n", |name| + 2);
    assert rest[1..1 + |name|] == name;
  }

  /**
   * A channel line ending in a newline shows everything after the one
   * character following "Channel", less its last character: `(Channel 11)`
   * shows "11", while `Channel:11` shows "1".
   */
  lemma ChannelOfLine(indent: string, sep: char, value: string)
    requires |value| >= 1
    requires forall i :: 0 <= i < |value| ==> value[i] != '\n'
    requires forall i :: 0 <= i < |indent| ==> !OccursAt(indent + "Channel" + [sep] + value + "\n", "Channel", i)
    ensures ChannelCuttable(indent + "Channel" + [sep] + value + "\n")
    ensures ChannelText(indent + "Channel" + [sep] + value + "\n") == value[..|value| - 1]
  {
    var line := indent + "Channel" + [sep] + value + "\n";
    assert line[|indent|..|indent| + 7] == "Channel";
    FindFirst(line, "Channel", |indent|);
    var rest := line[|indent| + 8..] + " ";
    assert rest == value + "\n" + " ";
    assert rest[|value|..|value| + 1] == "\n";
    forall i | 0 <= i < |value|
      ensures !OccursAt(rest, "\n", i)
    {
      assert rest[i..i + 1] == [value[i]];
    }
    FindFirst(rest, "\n", |value|);
  }

  /** A quality field of two digits followed by more text is read as those two digits. */
  lemma QualityOfTwoDigits(line: string)
    requires QualityCuttable(line)
    requires PosOf(line, "Quality") + 31 <= |line|
    requires IsDigit(line[PosOf(line, "Quality") + 29]) && IsDigit(line[PosOf(line, "Quality") + 30])
    ensures var p := PosOf(line, "Quality");
            && ScanQuality(line) == [line[p + 29], line[p + 30]]
            && Atoi(ScanQuality(line)) == 10 * DigitValue(line[p + 29]) + DigitValue(line[p + 30])
  {
    var p := PosOf(line, "Quality");
    var q := Substr(line, p + 29, 2);
    assert q == [line[p + 29], line[p + 30]];
    forall i ensures !OccursAt(q, "\n", i) {
      if 0 <= i < 2 {
        assert q[i..i + 1] == [q[i]];
      }
    }
    AtoiTwoDigits(line[p + 29], line[p + 30]);
  }

  /** The array contents after the scan: what was recorded, then the slots left as they were. */
  function Pad<T>(recorded: seq<T>, initial: seq<T>): (slots: seq<T>)
    requires |recorded| <= |initial|
    ensures |slots| == |initial|
    ensures forall j :: 0 <= j < |recorded| ==> slots[j] == recorded[j]
    ensures forall j :: |recorded| <= j < |initial| ==> slots[j] == initial[j]
  {
    recorded + initial[|recorded|..]
  }

  /** `std::string wSSID[24]` and its siblings start out as empty strings. */
  function EmptySlots(): (slots: seq<string>)
    ensures |slots| == Slots
    ensures forall j :: 0 <= j < Slots ==> slots[j] == ""
  {
    seq(Slots, _ => "")
  }

  /** Recording one more value fills the next slot. */
  lemma PadAppend<T>(recorded: seq<T>, x: T, initial: seq<T>)
    requires |recorded| < |initial|
    ensures Pad(recorded + [x], initial) == Pad(recorded, initial)[|recorded| := x]
  {
  }

  /** The encryption half of the scan loop's body: a line that mentions encryption fills the next flag. */
  method RecordEncryption(bEncryption: array<bool>, encryptionIndex: int, line: string, ghost flags: seq<bool>, ghost stale: seq<bool>)
    returns (next: int)
    requires bEncryption.Length == |stale| && encryptionIndex == |flags| && |WithEncryption(flags, line)| <= |stale|
    requires bEncryption[..] == Pad(flags, stale)
    modifies bEncryption
    ensures next == |WithEncryption(flags, line)|
    ensures bEncryption[..] == Pad(WithEncryption(flags, line), stale)
  {
    next := encryptionIndex;
    if Contains(line, "Encryption key:on") {
      PadAppend(flags, true, stale);
      bEncryption[encryptionIndex] := true;
      next := encryptionIndex + 1;
    } else if Contains(line, "Encryption key:off") {
      PadAppend(flags, false, stale);
      bEncryption[encryptionIndex] := false;
      next := encryptionIndex + 1;
    }
  }

  /** The field half of the scan loop's body: the first of ESSID, Channel and Quality fills the next slot of its array. */
  method RecordField(wSSID: array<string>, wChannel: array<string>, wQuality: array<string>,
                     ssidIndex: int, channelIndex: int, qualityIndex: int, line: string, ghost t: ScanTable)
    returns (ssidNext: int, channelNext: int, qualityNext: int)
    requires ScanCuttable(line) && FitsSlots(ScanLine(t, line))
    requires wSSID != wChannel && wSSID != wQuality && wChannel != wQuality
    requires ssidIndex == |t.ssids| && channelIndex == |t.channels| && qualityIndex == |t.qualities|
    requires wSSID[..] == Pad(t.ssids, EmptySlots()) && wChannel[..] == Pad(t.channels, EmptySlots())
    requires wQuality[..] == Pad(t.qualities, EmptySlots())
    modifies wSSID, wChannel, wQuality
    ensures var t' := ScanLine(t, line);
            && ssidNext == |t'.ssids| && channelNext == |t'.channels| && qualityNext == |t'.qualities|
            && wSSID[..] == Pad(t'.ssids, EmptySlots()) && wChannel[..] == Pad(t'.channels, EmptySlots())
            && wQuality[..] == Pad(t'.qualities, EmptySlots())
  {
    ScanLineFields(t, line);
    ssidNext, channelNext, qualityNext := ssidIndex, channelIndex, qualityIndex;
    if Contains(line, "ESSID") {
      PadAppend(t.ssids, ScanSsid(line), EmptySlots());
      wSSID[ssidIndex] := ScanSsid(line);
      ssidNext := ssidIndex + 1;
    } else if Contains(line, "Channel") {
      PadAppend(t.channels, ChannelText(line), EmptySlots());
      wChannel[channelIndex] := ChannelText(line);
      channelNext := channelIndex + 1;
    } else if Contains(line, "Quality") {
      PadAppend(t.qualities, ScanQuality(line), EmptySlots());
      wQuality[qualityIndex] := ScanQuality(line);
      qualityNext := qualityIndex + 1;
    }
  }

  lemma ScanStep(lines: seq<string>, i: nat)
    requires AllScanCuttable(lines) && i < |lines|
    ensures AllScanCuttable(lines[..i]) && AllScanCuttable(lines[..i + 1])
    ensures Scan(lines[..i + 1]) == ScanLine(Scan(lines[..i]), lines[i])
  {
    assert lines[..i + 1][..i] == lines[..i];
  }

  /** The four arrays and their counters hold what the scan table `t` recorded. */
  ghost predicate Mirrors(t: ScanTable, wSSID: array<string>, wChannel: array<string>, wQuality: array<string>,
                          bEncryption: array<bool>, stale: seq<bool>,
                          ssidIndex: int, channelIndex: int, qualityIndex: int, encryptionIndex: int)
    reads wSSID, wChannel, wQuality, bEncryption
  {
    && FitsSlots(t) && |stale| == Slots && bEncryption.Length == Slots
    && ssidIndex == |t.ssids| && channelIndex == |t.channels|
    && qualityIndex == |t.qualities| && encryptionIndex == |t.encryption|
    && wSSID[..] == Pad(t.ssids, EmptySlots()) && wChannel[..] == Pad(t.channels, EmptySlots())
    && wQuality[..] == Pad(t.qualities, EmptySlots()) && bEncryption[..] == Pad(t.encryption, stale)
  }

  /** One pass of the scan loop's body over the arrays. */
  method ScanOne(wSSID: array<string>, wChannel: array<string>, wQuality: array<string>, bEncryption: array<bool>,
                 ssidIndex: int, channelIndex: int, qualityIndex: int, encryptionIndex: int,
                 line: string, ghost t: ScanTable, ghost stale: seq<bool>)
    returns (ssidNext: int, channelNext: int, qualityNext: int, encryptionNext: int)
    requires ScanCuttable(line) && FitsSlots(ScanLine(t, line))
    requires wSSID != wChannel && wSSID != wQuality && wChannel != wQuality
    requires Mirrors(t, wSSID, wChannel, wQuality, bEncryption, stale, ssidIndex, channelIndex, qualityIndex, encryptionIndex)
    modifies wSSID, wChannel, wQuality, bEncryption
    ensures Mirrors(ScanLine(t, line), wSSID, wChannel, wQuality, bEncryption, stale,
                    ssidNext, channelNext, qualityNext, encryptionNext)
  {
    assert ScanLine(t, line).encryption == WithEncryption(t.encryption, line);
    encryptionNext := RecordEncryption(bEncryption, encryptionIndex, line, t.encryption, stale);
    ssidNext, channelNext, qualityNext :=
      RecordField(wSSID, wChannel, wQuality, ssidIndex, channelIndex, qualityIndex, line, t);
  }

  /**
   * The scan loop of "CONNECT TO NEW WIFI": each line is searched for
   * encryption first, then for ESSID, Channel and Quality in that order,
   * the first match writing the next slot of its array.  `stale` is what
   * the uninitialised `bool bEncryption[24]` happens to hold.
   */
  method ScanLines(lines: seq<string>, stale: seq<bool>)
    returns (wSSID: array<string>, wChannel: array<string>, wQuality: array<string>, bEncryption: array<bool>,
             ssidIndex: int, channelIndex: int, qualityIndex: int, encryptionIndex: int)
    requires AllScanCuttable(lines) && FitsSlots(Scan(lines))
    requires |stale| == Slots
    ensures fresh(wSSID) && fresh(wChannel) && fresh(wQuality) && fresh(bEncryption)
    ensures var t := Scan(lines);
            && ssidIndex == |t.ssids| && channelIndex == |t.channels|
            && qualityIndex == |t.qualities| && encryptionIndex == |t.encryption|
            && wSSID[..] == Pad(t.ssids, EmptySlots()) && wChannel[..] == Pad(t.channels, EmptySlots())
            && wQuality[..] == Pad(t.qualities, EmptySlots()) && bEncryption[..] == Pad(t.encryption, stale)
  {
    wSSID := new string[Slots](_ => "");
    wChannel := new string[Slots](_ => "");
    wQuality := new string[Slots](_ => "");
    bEncryption := new bool[Slots](j requires 0 <= j < Slots => stale[j]);
    ssidIndex, channelIndex, qualityIndex, encryptionIndex := 0, 0, 0, 0;
    assert lines[..0] == [];
    assert wSSID[..] == EmptySlots() && wChannel[..] == EmptySlots() && wQuality[..] == EmptySlots();
    assert bEncryption[..] == stale;
    var i := 0;
    while i < |lines|
      invariant 0 <= i <= |lines|
      invariant AllScanCuttable(lines[..i])
      invariant Mirrors(Scan(lines[..i]), wSSID, wChannel, wQuality, bEncryption, stale,
                        ssidIndex, channelIndex, qualityIndex, encryptionIndex)
    {
      ScanStep(lines, i);
      ScanGrows(lines, i + 1);
      ssidIndex, channelIndex, qualityIndex, encryptionIndex :=
        ScanOne(wSSID, wChannel, wQuality, bEncryption, ssidIndex, channelIndex, qualityIndex, encryptionIndex,
                lines[i], Scan(lines[..i]), stale);
      i := i + 1;
    }
    assert lines[..i] == lines;
  }

  // =====================================================================
  // CONNECT TO NEW WIFI: the rows

  /** One row of the "AVAILABLE NETWORKS" list. */
  datatype Row =
    | NetworkRow(ssid: string, ssidColor: int, bars: string, barsColor: int, encrypted: bool)
    | NoNetworksRow(message: string, color: int)

  /** The signal graph for a quality reading; at most 10 it is a single bar. */
  function Bars(quality: int): (bars: string)
    ensures quality >= 85 ==> bars == "|"
    ensures 75 <= quality < 85 ==> bars == "| |"
    ensures 65 <= quality < 75 ==> bars == "| | |"
    ensures 10 < quality < 65 ==> bars == "| | | |"
    ensures quality <= 10 ==> bars == "|"
  {
    if quality >= 85 then "|"
    else if quality >= 75 then "| |"
    else if quality >= 65 then "| | |"
    else if quality > 10 then "| | | |"
    else "|"
  }

  /** The signal colour a quality reading sets; `None` (at most 10) sets none. */
  function TierColor(quality: int): (color: Option<int>)
    ensures color.None? <==> quality <= 10
    ensures quality >= 85 ==> color == Some(StrongColor)
    ensures 75 <= quality < 85 ==> color == Some(GoodColor)
    ensures 65 <= quality < 75 ==> color == Some(FairColor)
    ensures 10 < quality < 65 ==> color == Some(WeakColor)
  {
    if quality >= 85 then Some(StrongColor)
    else if quality >= 75 then Some(GoodColor)
    else if quality >= 65 then Some(FairColor)
    else if quality > 10 then Some(WeakColor)
    else None
  }

  /**
   * The value of `color` when row `i` is built: the colour its own quality
   * sets, else the one carried over from the row before, else the menu's
   * text colour.
   */
  function SignalColor(qualities: seq<string>, i: nat, menuColor: int): int
    requires i < |qualities|
  {
    match TierColor(Atoi(qualities[i]))
    case Some(c) => c
    case None => if i == 0 then menuColor else SignalColor(qualities, i - 1, menuColor)
  }

  function NetworkRowAt(ssids: seq<string>, qualities: seq<string>, encryption: seq<bool>, i: nat, menuColor: int): Row
    requires i < |ssids| && i < |qualities| && i < |encryption|
  {
    NetworkRow(ssids[i], if encryption[i] then EncryptedColor else OpenColor,
               Bars(Atoi(qualities[i])), SignalColor(qualities, i, menuColor), encryption[i])
  }

  /** The network rows for the first `count` slots. */
  function NetworkRows(ssids: seq<string>, qualities: seq<string>, encryption: seq<bool>, count: nat, menuColor: int): seq<Row>
    requires count <= |ssids| && count <= |qualities| && count <= |encryption|
  {
    seq(count, i requires 0 <= i < count => NetworkRowAt(ssids, qualities, encryption, i, menuColor))
  }

  lemma NetworkRowsSnoc(ssids: seq<string>, qualities: seq<string>, encryption: seq<bool>, count: nat, menuColor: int)
    requires count < |ssids| && count < |qualities| && count < |encryption|
    ensures NetworkRows(ssids, qualities, encryption, count + 1, menuColor) ==
              NetworkRows(ssids, qualities, encryption, count, menuColor) + [NetworkRowAt(ssids, qualities, encryption, count, menuColor)]
  {
    var longer := NetworkRows(ssids, qualities, encryption, count + 1, menuColor);
    var shorter := NetworkRows(ssids, qualities, encryption, count, menuColor);
    assert |longer| == |shorter| + 1;
    forall j | 0 <= j < count
      ensures longer[j] == shorter[j]
    {
      assert longer[j] == NetworkRowAt(ssids, qualities, encryption, j, menuColor);
    }
  }

  /** The rows for the first `count` slots, or the single "no networks" row when there are none. */
  function Rows(ssids: seq<string>, qualities: seq<string>, encryption: seq<bool>, count: nat, menuColor: int): seq<Row>
    requires count <= |ssids| && count <= |qualities| && count <= |encryption|
  {
    if count == 0 then [NoNetworksRow(NoNetworksText, menuColor)]
    else NetworkRows(ssids, qualities, encryption, count, menuColor)
  }

  /** The row loop's body: the row for one network, and the colour carried to the next. */
  method RowFor(ssid: string, qual: string, encrypted: bool, color: int) returns (row: Row, color': int)
    ensures color' == match TierColor(Atoi(qual)) case Some(c) => c case None => color
    ensures row == NetworkRow(ssid, if encrypted then EncryptedColor else OpenColor, Bars(Atoi(qual)), color', encrypted)
  {
    color' := color;
    var sigText := "|";
    var intQuality := Atoi(qual);
    if intQuality >= 85 {
      color' := StrongColor;
    } else if intQuality >= 75 {
      color' := GoodColor;
      sigText := "| |";
    } else if intQuality >= 65 {
      color' := FairColor;
      sigText := "| | |";
    } else if intQuality > 10 {
      color' := WeakColor;
      sigText := "| | | |";
    }
    var encryptionColor := OpenColor;
    if encrypted {
      encryptionColor := EncryptedColor;
    }
    row := NetworkRow(ssid, encryptionColor, sigText, color', encrypted);
  }

  /** One turn of the row loop extends the rows by the row for slot `i` and carries its colour on. */
  lemma RowStep(ssids: seq<string>, qualities: seq<string>, encryption: seq<bool>, i: nat, menuColor: int,
                color: int, row: Row, color': int)
    requires i < |ssids| && i < |qualities| && i < |encryption|
    requires color == if i == 0 then menuColor else SignalColor(qualities, i - 1, menuColor)
    requires color' == match TierColor(Atoi(qualities[i])) case Some(c) => c case None => color
    requires row == NetworkRow(ssids[i], if encryption[i] then EncryptedColor else OpenColor,
                               Bars(Atoi(qualities[i])), color', encryption[i])
    ensures color' == SignalColor(qualities, i, menuColor)
    ensures NetworkRows(ssids, qualities, encryption, i + 1, menuColor) ==
              NetworkRows(ssids, qualities, encryption, i, menuColor) + [row]
  {
    NetworkRowsSnoc(ssids, qualities, encryption, i, menuColor);
  }

  /**
   * The row loop: one row per recorded network, in scan order, with
   * `color` carried from one row to the next; a single "no networks" row
   * when the scan found none.
   */
  method BuildRows(wSSID: array<string>, wQuality: array<string>, bEncryption: array<bool>, ssidIndex: int, menuColor: int)
    returns (rows: seq<Row>)
    requires wSSID.Length == Slots && wQuality.Length == Slots && bEncryption.Length == Slots
    requires 0 <= ssidIndex <= Slots
    ensures rows == Rows(wSSID[..], wQuality[..], bEncryption[..], ssidIndex, menuColor)
  {
    ghost var ssids, quals, flags := wSSID[..], wQuality[..], bEncryption[..];
    rows := [];
    var color := menuColor;
    var i := 0;
    while i < ssidIndex
      invariant 0 <= i <= ssidIndex
      invariant color == if i == 0 then menuColor else SignalColor(quals, i - 1, menuColor)
      invariant rows == NetworkRows(ssids, quals, flags, i, menuColor)
    {
      var row, color';
      row, color' := RowFor(wSSID[i], wQuality[i], bEncryption[i], color);
      RowStep(ssids, quals, flags, i, menuColor, color, row, color');
      rows, color := rows + [row], color';
      i := i + 1;
    }
    if ssidIndex < 1 {
      rows := [NoNetworksRow(NoNetworksText, menuColor)];
    }
  }

  /** The screen the "CONNECT TO NEW WIFI" entry opens, for a given scan output. */
  function NetworkList(lines: seq<string>, stale: seq<bool>, menuColor: int): (rows: seq<Row>)
    requires AllScanCuttable(lines) && FitsSlots(Scan(lines)) && |stale| == Slots
    ensures |rows| == if Scan(lines).ssids == [] then 1 else |Scan(lines).ssids|
  {
    var t := Scan(lines);
    Rows(Pad(t.ssids, EmptySlots()), Pad(t.qualities, EmptySlots()), Pad(t.encryption, stale), |t.ssids|, menuColor)
  }

  /** "CONNECT TO NEW WIFI": the scan loop, then the row loop. */
  method ConnectToNewWifi(lines: seq<string>, stale: seq<bool>, menuColor: int) returns (rows: seq<Row>)
    requires AllScanCuttable(lines) && FitsSlots(Scan(lines))
    requires |stale| == Slots
    ensures rows == NetworkList(lines, stale, menuColor)
  {
    var wSSID, wChannel, wQuality, bEncryption, ssidIndex, channelIndex, qualityIndex, encryptionIndex :=
      ScanLines(lines, stale);
    rows := BuildRows(wSSID, wQuality, bEncryption, ssidIndex, menuColor);
  }

  /** The encryption flag row `i` reads: the recorded one, or what the uninitialised slot held. */
  function EncryptionSlot(t: ScanTable, stale: seq<bool>, i: nat): bool
    requires i < |stale|
  {
    if i < |t.encryption| then t.encryption[i] else stale[i]
  }

  /** The quality row `i` reads: the recorded one, or the empty string, which reads as 0. */
  function QualitySlot(t: ScanTable, i: nat): int {
    if i < |t.qualities| then Atoi(t.qualities[i]) else 0
  }

  /**
   * One row per network found, in scan order, each showing the recorded
   * name; exactly one "NO NETWORKS COULD BE FOUND." row when none was.
   */
  lemma OneRowPerNetwork(lines: seq<string>, stale: seq<bool>, menuColor: int)
    requires AllScanCuttable(lines) && FitsSlots(Scan(lines)) && |stale| == Slots
    ensures Scan(lines).ssids == [] ==> NetworkList(lines, stale, menuColor) == [NoNetworksRow(NoNetworksText, menuColor)]
    ensures Scan(lines).ssids != [] ==> |NetworkList(lines, stale, menuColor)| == |Scan(lines).ssids|
    ensures forall i :: 0 <= i < |Scan(lines).ssids| ==>
              NetworkList(lines, stale, menuColor)[i].NetworkRow? && NetworkList(lines, stale, menuColor)[i].ssid == Scan(lines).ssids[i]
  {
  }

  /**
   * Encrypted networks are named in 0xFF7777FF and the others in
   * 0x77BB77FF; a network beyond the recorded encryption flags takes
   * whatever the uninitialised slot held.
   */
  lemma NameColourFollowsEncryption(lines: seq<string>, stale: seq<bool>, menuColor: int, i: nat)
    requires AllScanCuttable(lines) && FitsSlots(Scan(lines)) && |stale| == Slots
    requires i < |Scan(lines).ssids|
    ensures NetworkList(lines, stale, menuColor)[i].encrypted == EncryptionSlot(Scan(lines), stale, i)
    ensures NetworkList(lines, stale, menuColor)[i].ssidColor ==
              (if EncryptionSlot(Scan(lines), stale, i) then EncryptedColor else OpenColor)
  {
  }

  /**
   * The signal graph follows the row's quality reading; its colour is the
   * reading's tier colour, or for a reading of at most 10 the colour of the
   * row before (the menu's text colour for the first row).
   */
  lemma SignalFollowsQuality(lines: seq<string>, stale: seq<bool>, menuColor: int, i: nat)
    requires AllScanCuttable(lines) && FitsSlots(Scan(lines)) && |stale| == Slots
    requires i < |Scan(lines).ssids|
    ensures NetworkList(lines, stale, menuColor)[i].bars == Bars(QualitySlot(Scan(lines), i))
    ensures QualitySlot(Scan(lines), i) > 10 ==>
              Some(NetworkList(lines, stale, menuColor)[i].barsColor) == TierColor(QualitySlot(Scan(lines), i))
    ensures QualitySlot(Scan(lines), i) <= 10 && i == 0 ==> NetworkList(lines, stale, menuColor)[i].barsColor == menuColor
    ensures QualitySlot(Scan(lines), i) <= 10 && i > 0 ==>
              NetworkList(lines, stale, menuColor)[i].barsColor == NetworkList(lines, stale, menuColor)[i - 1].barsColor
  {
    var t := Scan(lines);
    var ssids, quals, flags := Pad(t.ssids, EmptySlots()), Pad(t.qualities, EmptySlots()), Pad(t.encryption, stale);
    assert NetworkList(lines, stale, menuColor) == Rows(ssids, quals, flags, |t.ssids|, menuColor);
    assert Atoi(quals[i]) == QualitySlot(t, i) by {
      if i >= |t.qualities| {
        assert quals[i] == "";
      }
    }
    RowAt(ssids, quals, flags, |t.ssids|, menuColor, i);
    if i > 0 {
      RowAt(ssids, quals, flags, |t.ssids|, menuColor, i - 1);
    }
    SignalOfRow(ssids, quals, flags, menuColor, i);
  }

  /** The signal part of the row for slot `i`, in terms of the quality that slot holds. */
  lemma SignalOfRow(ssids: seq<string>, qualities: seq<string>, encryption: seq<bool>, menuColor: int, i: nat)
    requires i < |ssids| && i < |qualities| && i < |encryption|
    ensures NetworkRowAt(ssids, qualities, encryption, i, menuColor).bars == Bars(Atoi(qualities[i]))
    ensures Atoi(qualities[i]) > 10 ==>
              Some(NetworkRowAt(ssids, qualities, encryption, i, menuColor).barsColor) == TierColor(Atoi(qualities[i]))
    ensures Atoi(qualities[i]) <= 10 && i == 0 ==> NetworkRowAt(ssids, qualities, encryption, i, menuColor).barsColor == menuColor
    ensures Atoi(qualities[i]) <= 10 && i > 0 ==>
              NetworkRowAt(ssids, qualities, encryption, i, menuColor).barsColor ==
              NetworkRowAt(ssids, qualities, encryption, i - 1, menuColor).barsColor
  {
  }

  /** Row `i` of a non-empty list is the network row built for slot `i`. */
  lemma RowAt(ssids: seq<string>, qualities: seq<string>, encryption: seq<bool>, count: nat, menuColor: int, i: nat)
    requires i < count <= |ssids| && count <= |qualities| && count <= |encryption|
    ensures |Rows(ssids, qualities, encryption, count, menuColor)| == count
    ensures Rows(ssids, qualities, encryption, count, menuColor)[i] == NetworkRowAt(ssids, qualities, encryption, i, menuColor)
  {
  }

  // =====================================================================
  // SAVED NETWORKS

  /** Where the `wificonnect` helper is expected, under the home directory. */
  function WificonnectPath(home: string): string {
    home + "/.emulationstation/app/wifi/./wificonnect"
  }

  /** The command whose output lists the saved networks. */
  function ListCommand(wificonnect: string): string {
    "sudo " + wificonnect + " --list"
  }

  /**
   * The command that removes a saved network: `sudo`, the helper, `--remove`
   * and an opening quote, then the name unescaped, then a closing quote.
   */
  function RemoveCommand(wificonnect: string, network: string): (command: string)
    ensures var head := "sudo " + wificonnect + " --remove \"";
            && |command| == |head| + |network| + 1
            && command[..|head|] == head
            && command[|head|..|head| + |network|] == network
            && command[|command| - 1] == '"'
  {
    "sudo " + wificonnect + " --remove \"" + network + "\""
  }

  /** A listed line loses its last character (the newline `fgets` keeps). */
  function SavedName(line: string): (name: string)
    ensures |line| > 0 ==> name == line[..|line| - 1]
    ensures |line| == 0 ==> name == ""
  {
    Substr(line, 0, |line| - 1)
  }

  /** A newline-terminated name is listed as the name itself. */
  lemma SavedNameDropsNewline(name: string)
    ensures SavedName(name + "\n") == name
  {
    assert (name + "\n")[..|name|] == name;
  }

  /** The remove command determines the network it names: two names give the same command only if they are equal. */
  lemma RemoveCommandNamesNetwork(wificonnect: string, a: string, b: string)
    ensures RemoveCommand(wificonnect, a) == RemoveCommand(wificonnect, b) <==> a == b
  {
    var head := "sudo " + wificonnect + " --remove \"";
    if RemoveCommand(wificonnect, a) == RemoveCommand(wificonnect, b) {
      assert |a| == |b|;
      assert RemoveCommand(wificonnect, a)[|head|..|head| + |a|] == a;
      assert RemoveCommand(wificonnect, b)[|head|..|head| + |b|] == b;
    }
  }

  /** One row of the "SAVED NETWORKS" list and the command its confirmation runs. */
  datatype SavedRow = SavedRow(caption: string, network: string, removeCommand: string)

  datatype SavedScreen = WificonnectMissing | SavedList(rows: seq<SavedRow>)

  /**
   * "SAVED NETWORKS": the helper is looked for under `home`, and the list
   * command is built before the check; without the helper, only the
   * "wificonnect is missing" message; otherwise one row per line `lines`
   * of the list command's output, in order, each removing its network
   * through the same helper.
   */
  method SavedNetworks(installed: bool, home: string, lines: seq<string>) returns (command: string, screen: SavedScreen)
    ensures command == ListCommand(WificonnectPath(home))
    ensures !installed ==> screen == WificonnectMissing
    ensures installed ==> screen.SavedList? && |screen.rows| == |lines|
    ensures installed ==> forall i :: 0 <= i < |lines| ==>
              screen.rows[i] == SavedRow("Network: ", SavedName(lines[i]), RemoveCommand(WificonnectPath(home), SavedName(lines[i])))
  {
    var wificonnect := home + "/.emulationstation/app/wifi/./wificonnect";
    command := "sudo " + wificonnect + " --list";
    if !installed {
      screen := WificonnectMissing;
      return;
    }
    var rows: seq<SavedRow> := [];
    var i := 0;
    while i < |lines|
      invariant 0 <= i <= |lines| && |rows| == i
      invariant forall j :: 0 <= j < i ==>
                  rows[j] == SavedRow("Network: ", SavedName(lines[j]), RemoveCommand(wificonnect, SavedName(lines[j])))
    {
      var currentLine := lines[i];
      currentLine := Substr(currentLine, 0, |currentLine| - 1);
      rows := rows + [SavedRow("Network: ", currentLine, "sudo " + wificonnect + " --remove \"" + currentLine + "\"")];
      i := i + 1;
    }
    screen := SavedList(rows);
  }

  const RemovedMessage: string := "Succesfully deleted network"
  const NotRemovedMessage: string := "Could not delete network."

  /** A line of `wificonnect --remove` output reports success exactly when it begins with '0'. */
  predicate RemovalSucceeded(chunk: string) {
    |chunk| > 0 && chunk[0] == '0'
  }

  /** The message boxes removing a network shows: one per output line. */
  method RemovalMessages(output: seq<string>) returns (messages: seq<string>)
    ensures |messages| == |output|
    ensures forall i :: 0 <= i < |output| ==>
              messages[i] == (if RemovalSucceeded(output[i]) then RemovedMessage else NotRemovedMessage)
  {
    messages := [];
    var i := 0;
    while i < |output|
      invariant 0 <= i <= |output| && |messages| == i
      invariant forall j :: 0 <= j < i ==>
                  messages[j] == (if RemovalSucceeded(output[j]) then RemovedMessage else NotRemovedMessage)
    {
      var pi := output[i];
      if |pi| > 0 && pi[0] == '0' {
        messages := messages + [RemovedMessage];
      } else {
        messages := messages + [NotRemovedMessage];
      }
      i := i + 1;
    }
  }

  // =====================================================================
  // SHOW ETHERNET DETAILS and SHOW CURRENT WIFI INFO

  predicate IpCuttable(line: string) {
    Contains(line, "inet addr") ==> PosOf(line, "inet addr") + 10 <= |line|
  }

  /** The address after `inet addr:`, 42 characters at most, cut `before` characters ahead of "Bcast". */
  function IpText(line: string, before: int): string
    requires Contains(line, "inet addr") && IpCuttable(line)
  {
    var ip := Substr(line, PosOf(line, "inet addr") + 10, 42);
    Substr(ip, 0, Find(ip, "Bcast") - before)
  }

  /** The 18 characters after `HWaddr`. */
  function MacText(line: string): string
    requires Contains(line, "HWaddr")
  {
    Substr(line, PosOf(line, "HWaddr") + 6, 18)
  }

  /** A `RX bytes` line can be cut: "TX" appears before its last two characters. */
  predicate TrafficCuttable(line: string) {
    Contains(line, "RX bytes") ==> Contains(Substr(line, 0, Find(line, "\n") - 2), "TX")
  }

  /** The received and transmitted parts of a `RX bytes ... TX bytes ...` line. */
  function TrafficText(line: string): (rxTx: (string, string))
    requires Contains(line, "RX bytes") && TrafficCuttable(line)
  {
    var head := Substr(line, 0, Find(line, "\n") - 2);
    var tx := PosOf(head, "TX");
    (Substr(head, 0, tx - 1), head[tx..])
  }

  /** The characters of a dotted IPv4 address. */
  predicate IsAddressChar(c: char) {
    IsDigit(c) || c == '.'
  }

  /**
   * For an `inet addr:A  Bcast:...` line with a dotted address A, the text
   * kept is A followed by the first `2 - before` of the two blanks: the
   * Ethernet screen (`before` 2) shows A, the Wi-Fi screen (`before` 1)
   * shows A and one blank.
   */
  lemma IpOfInetLine(indent: string, address: string, rest: string, before: int)
    requires 1 <= before <= 2 && |address| + 7 <= 42
    requires forall i :: 0 <= i < |address| ==> IsAddressChar(address[i])
    requires forall i :: 0 <= i < |indent| ==>
               !OccursAt(indent + "inet addr:" + address + "  Bcast" + rest, "inet addr", i)
    ensures Contains(indent + "inet addr:" + address + "  Bcast" + rest, "inet addr")
    ensures IpCuttable(indent + "inet addr:" + address + "  Bcast" + rest)
    ensures IpText(indent + "inet addr:" + address + "  Bcast" + rest, before) == (address + "  ")[..|address| + 2 - before]
  {
    var line := indent + "inet addr:" + address + "  Bcast" + rest;
    assert line[|indent|..|indent| + 9] == "inet addr";
    FindFirst(line, "inet addr", |indent|);
    assert line[|indent| + 10..|indent| + 17 + |address|] == address + "  Bcast";
    IpAtAddress(line, |indent|, address, before);
  }

  /** `IpText` of a line whose first `inet addr` at `at` is followed by a separator, the address, two blanks and "Bcast". */
  lemma IpAtAddress(line: string, at: nat, address: string, before: int)
    requires 1 <= before <= 2 && |address| + 7 <= 42
    requires forall i :: 0 <= i < |address| ==> IsAddressChar(address[i])
    requires Find(line, "inet addr") == at && at + 17 + |address| <= |line|
    requires line[at + 10..at + 17 + |address|] == address + "  Bcast"
    ensures Contains(line, "inet addr") && IpCuttable(line)
    ensures IpText(line, before) == (address + "  ")[..|address| + 2 - before]
  {
    var ip := Substr(line, at + 10, 42);
    assert ip[..|address| + 7] == line[at + 10..at + 17 + |address|];
    BcastAfterAddress(address, ip);
    assert ip[..|address| + 2 - before] == (address + "  ")[..|address| + 2 - before];
  }

  /** In the text after `inet addr:`, the first "Bcast" is the one after the address and its two blanks. */
  lemma BcastAfterAddress(address: string, ip: string)
    requires forall i :: 0 <= i < |address| ==> IsAddressChar(address[i])
    requires |address| + 7 <= |ip| && ip[..|address| + 7] == address + "  Bcast"
    ensures Find(ip, "Bcast") == |address| + 2
  {
    var shown := address + "  Bcast";
    assert forall i :: 0 <= i < |shown| ==> ip[i] == shown[i];
    assert ip[|address| + 2..|address| + 7] == shown[|address| + 2..];
    forall i | 0 <= i < |address| + 2
      ensures ip[i] != 'B'
    {
      if i < |address| {
        assert shown[i] == address[i];
      }
    }
    FindByFirstChar(ip, "Bcast", |address| + 2);
  }

  /** For an `HWaddr M` line with a 17-character address M, the MAC shown is the blank before M, then M. */
  lemma MacOfHwaddrLine(indent: string, mac: string, rest: string)
    requires |mac| == 17
    requires forall i :: 0 <= i < |indent| ==> !OccursAt(indent + "HWaddr " + mac + rest, "HWaddr", i)
    ensures Contains(indent + "HWaddr " + mac + rest, "HWaddr")
    ensures MacText(indent + "HWaddr " + mac + rest) == " " + mac
  {
    var line := indent + "HWaddr " + mac + rest;
    assert line[|indent|..|indent| + 6] == "HWaddr";
    FindFirst(line, "HWaddr", |indent|);
    assert line[|indent| + 6..|indent| + 24] == " " + mac;
  }

  /**
   * For a newline-terminated `RX ... TX ...` line, the received part loses
   * its last character (a blank in `ifconfig`'s layout), and the
   * transmitted part loses its last two characters besides the newline
   * (the ")" the data label puts back, and the character before it).
   */
  lemma TrafficOfBytesLine(rxPart: string, txPart: string)
    requires |rxPart| >= 1 && |txPart| >= 2 && Contains(rxPart, "RX bytes")
    requires forall i :: 0 <= i < |rxPart| ==> rxPart[i] != '\n'
    requires forall i :: 0 <= i < |txPart| ==> txPart[i] != '\n'
    requires forall i :: 0 <= i < |rxPart| ==> !OccursAt(rxPart + "TX" + txPart, "TX", i)
    ensures Contains(rxPart + "TX" + txPart + "\n", "RX bytes")
    ensures TrafficCuttable(rxPart + "TX" + txPart + "\n")
    ensures TrafficText(rxPart + "TX" + txPart + "\n") == (rxPart[..|rxPart| - 1], "TX" + txPart[..|txPart| - 2])
  {
    var full := rxPart + "TX" + txPart;
    var line := full + "\n";
    var rx := PosOf(rxPart, "RX bytes");
    assert line[rx..rx + 8] == rxPart[rx..rx + 8];
    assert OccursAt(line, "RX bytes", rx);
    assert forall i :: 0 <= i < |rxPart| ==> full[i] == rxPart[i];
    assert forall i :: |rxPart| + 2 <= i < |full| ==> full[i] == txPart[i - |rxPart| - 2];
    NewlineEndsLine(full);
    var head := Substr(line, 0, Find(line, "\n") - 2);
    assert head == full[..|full| - 2];
    TxFollowsRx(rxPart, txPart, head);
    assert TrafficText(line) == (Substr(head, 0, |rxPart| - 1), head[|rxPart|..]);
    assert Substr(head, 0, |rxPart| - 1) == rxPart[..|rxPart| - 1];
    assert head[|rxPart|..] == "TX" + txPart[..|txPart| - 2];
  }

  /** A text without newlines, followed by one, is cut at that newline. */
  lemma NewlineEndsLine(body: string)
    requires forall i :: 0 <= i < |body| ==> body[i] != '\n'
    ensures Find(body + "\n", "\n") == |body|
  {
    var line := body + "\n";
    assert line[|body|..|body| + 1] == "\n";
    assert forall i :: 0 <= i < |body| ==> line[i] == body[i];
    FindByFirstChar(line, "\n", |body|);
  }

  /** In the traffic head, the first "TX" is the one after the received part. */
  lemma TxFollowsRx(rxPart: string, txPart: string, head: string)
    requires |txPart| >= 2
    requires forall i :: 0 <= i < |rxPart| ==> !OccursAt(rxPart + "TX" + txPart, "TX", i)
    requires head == (rxPart + "TX" + txPart)[..|rxPart| + |txPart|]
    ensures Contains(head, "TX") && Find(head, "TX") == |rxPart|
    ensures head[..|rxPart|] == rxPart && head[|rxPart|..] == "TX" + txPart[..|txPart| - 2]
  {
    var full := rxPart + "TX" + txPart;
    assert head[|rxPart|..|rxPart| + 2] == "TX";
    forall i | 0 <= i < |rxPart|
      ensures !OccursAt(head, "TX", i)
    {
      OccursInPrefix(full, head, "TX", i);
    }
    FindFirst(head, "TX", |rxPart|);
    assert head == rxPart + "TX" + txPart[..|txPart| - 2];
  }

  datatype EthernetInfo = EthernetInfo(ip: string, mac: string, rx: string, tx: string)

  predicate EthernetCuttable(line: string) {
    IpCuttable(line) && TrafficCuttable(line)
  }

  predicate AllEthernetCuttable(lines: seq<string>) {
    forall i :: 0 <= i < |lines| ==> EthernetCuttable(lines[i])
  }

  /** One pass of the `ifconfig eth0` loop: each field a line carries replaces the one before. */
  function EthernetLine(info: EthernetInfo, line: string): EthernetInfo
    requires EthernetCuttable(line)
  {
    EthernetInfo(if Contains(line, "inet addr") then IpText(line, 2) else info.ip,
                 if Contains(line, "HWaddr") then MacText(line) else info.mac,
                 if Contains(line, "RX bytes") then TrafficText(line).0 else info.rx,
                 if Contains(line, "RX bytes") then TrafficText(line).1 else info.tx)
  }

  function Ethernet(lines: seq<string>): EthernetInfo
    requires AllEthernetCuttable(lines)
  {
    if lines == [] then EthernetInfo("", "", "", "")
    else EthernetLine(Ethernet(lines[..|lines| - 1]), lines[|lines| - 1])
  }

  /** The index of the last line containing `pat`, or -1. */
  function LastWith(lines: seq<string>, pat: string): (k: int)
    ensures -1 <= k < |lines|
    ensures k >= 0 ==> Contains(lines[k], pat)
    ensures forall j :: k < j < |lines| ==> !Contains(lines[j], pat)
  {
    if lines == [] then -1
    else if Contains(lines[|lines| - 1], pat) then |lines| - 1
    else LastWith(lines[..|lines| - 1], pat)
  }

  /** The address shown comes from the last line with `inet addr`, and is empty when no line has one. */
  lemma {:induction false} EthernetIpFromLastLine(lines: seq<string>)
    requires AllEthernetCuttable(lines)
    ensures Ethernet(lines).ip == if LastWith(lines, "inet addr") < 0 then "" else IpText(lines[LastWith(lines, "inet addr")], 2)
  {
    if lines != [] {
      EthernetIpFromLastLine(lines[..|lines| - 1]);
    }
  }

  /** The hardware address shown comes from the last line with `HWaddr`, and is empty when no line has one. */
  lemma {:induction false} EthernetMacFromLastLine(lines: seq<string>)
    requires AllEthernetCuttable(lines)
    ensures Ethernet(lines).mac == if LastWith(lines, "HWaddr") < 0 then "" else MacText(lines[LastWith(lines, "HWaddr")])
  {
    if lines != [] {
      EthernetMacFromLastLine(lines[..|lines| - 1]);
    }
  }

  /** The traffic shown comes from the last line with `RX bytes`, and is empty when no line has one. */
  lemma {:induction false} EthernetTrafficFromLastLine(lines: seq<string>)
    requires AllEthernetCuttable(lines)
    ensures (Ethernet(lines).rx, Ethernet(lines).tx) ==
              if LastWith(lines, "RX bytes") < 0 then ("", "") else TrafficText(lines[LastWith(lines, "RX bytes")])
  {
    if lines != [] {
      EthernetTrafficFromLastLine(lines[..|lines| - 1]);
    }
  }

  /** The "DATA" label: received, a line break and indent, transmitted, and a closing parenthesis. */
  function DataText(info: EthernetInfo): string {
    info.rx + "\n     " + info.tx + ")"
  }

  /** The body of the `ifconfig eth0` loop. */
  method ReadEthernetLine(wIP: string, wMac: string, wRX: string, wTX: string, currentLine: string)
    returns (ip': string, mac': string, rx': string, tx': string)
    requires EthernetCuttable(currentLine)
    ensures EthernetInfo(ip', mac', rx', tx') == EthernetLine(EthernetInfo(wIP, wMac, wRX, wTX), currentLine)
  {
    ip', mac', rx', tx' := wIP, wMac, wRX, wTX;
    if Contains(currentLine, "inet addr") {
      var ip := Substr(currentLine, PosOf(currentLine, "inet addr") + 10, 42);
      ip' := Substr(ip, 0, Find(ip, "Bcast") - 2);
    }
    if Contains(currentLine, "HWaddr") {
      mac' := Substr(currentLine, PosOf(currentLine, "HWaddr") + 6, 18);
    }
    if Contains(currentLine, "RX bytes") {
      var trim := Find(currentLine, "\n");
      rx' := Substr(currentLine, 0, trim - 2);
      trim := PosOf(rx', "TX");
      tx' := rx'[trim..];
      rx' := Substr(rx', 0, trim - 1);
      assert (rx', tx') == TrafficText(currentLine);
    }
  }

  /** "SHOW ETHERNET DETAILS": the loop over the output of `ifconfig eth0`. */
  method EthernetDetails(lines: seq<string>) returns (info: EthernetInfo, data: string)
    requires AllEthernetCuttable(lines)
    ensures info == Ethernet(lines)
    ensures data == DataText(Ethernet(lines))
  {
    var wIP, wMac, wRX, wTX := "", "", "", "";
    var i := 0;
    while i < |lines|
      invariant 0 <= i <= |lines|
      invariant AllEthernetCuttable(lines[..i])
      invariant EthernetInfo(wIP, wMac, wRX, wTX) == Ethernet(lines[..i])
    {
      assert lines[..i + 1][..i] == lines[..i];
      wIP, wMac, wRX, wTX := ReadEthernetLine(wIP, wMac, wRX, wTX, lines[i]);
      i := i + 1;
    }
    assert lines[..i] == lines;
    info := EthernetInfo(wIP, wMac, wRX, wTX);
    data := wRX + "\n     " + wTX + ")";
  }

  /** What the "CURRENT WIFI NETWORK" screen shows. */
  datatype WifiInfo = WifiInfo(ssid: string, channel: string, quality: string, ip: string)

  /** The current-network loop cuts ESSID and Channel lines without throwing. */
  predicate InfoCuttable(line: string) {
    (Contains(line, "ESSID") ==> EssidCuttable(line)) && (Contains(line, "Channel") ==> ChannelCuttable(line))
  }

  /** From `Quality` up to the newline. */
  function QualityText(line: string): string
    requires Contains(line, "Quality")
  {
    var q := line[PosOf(line, "Quality")..];
    Substr(q, 0, Find(q, "\n"))
  }

  /** One pass of the `iwlist` loop: unlike the scan, every test runs, and a later line replaces an earlier one. */
  function InfoLine(info: WifiInfo, line: string): WifiInfo
    requires InfoCuttable(line)
  {
    var i1 := if Contains(line, "ESSID") then info.(ssid := EssidText(line)) else info;
    var i2 := if Contains(line, "Channel") then i1.(channel := ChannelText(line)) else i1;
    if Contains(line, "Quality") then i2.(quality := QualityText(line)) else i2
  }

  predicate AllInfoCuttable(lines: seq<string>) {
    forall i :: 0 <= i < |lines| ==> InfoCuttable(lines[i])
  }

  predicate AllIpCuttable(lines: seq<string>) {
    forall i :: 0 <= i < |lines| ==> IpCuttable(lines[i])
  }

  function Info(iwLines: seq<string>): WifiInfo
    requires AllInfoCuttable(iwLines)
  {
    if iwLines == [] then WifiInfo("", "", "", "")
    else InfoLine(Info(iwLines[..|iwLines| - 1]), iwLines[|iwLines| - 1])
  }

  function Ip(ipLines: seq<string>): string
    requires AllIpCuttable(ipLines)
  {
    if ipLines == [] then ""
    else
      var line := ipLines[|ipLines| - 1];
      if Contains(line, "inet addr") then IpText(line, 1) else Ip(ipLines[..|ipLines| - 1])
  }

  /** The network name shown is the last ESSID line's, with no "[Hidden Network]" substitution. */
  lemma {:induction false} CurrentSsidIsLastEssid(iwLines: seq<string>)
    requires AllInfoCuttable(iwLines)
    ensures var k := LastWith(iwLines, "ESSID");
            Info(iwLines).ssid == if k < 0 then "" else EssidText(iwLines[k])
  {
    if iwLines != [] {
      var prefix := iwLines[..|iwLines| - 1];
      CurrentSsidIsLastEssid(prefix);
      assert forall j :: 0 <= j < |prefix| ==> prefix[j] == iwLines[j];
    }
  }

  /** The channel shown is the last Channel line's, and empty when no line has one. */
  lemma {:induction false} CurrentChannelIsLastChannel(iwLines: seq<string>)
    requires AllInfoCuttable(iwLines)
    ensures var k := LastWith(iwLines, "Channel");
            Info(iwLines).channel == if k < 0 then "" else ChannelText(iwLines[k])
  {
    if iwLines != [] {
      var prefix := iwLines[..|iwLines| - 1];
      CurrentChannelIsLastChannel(prefix);
      assert forall j :: 0 <= j < |prefix| ==> prefix[j] == iwLines[j];
    }
  }

  /** The quality shown is the last Quality line's, and empty when no line has one. */
  lemma {:induction false} CurrentQualityIsLastQuality(iwLines: seq<string>)
    requires AllInfoCuttable(iwLines)
    ensures var k := LastWith(iwLines, "Quality");
            Info(iwLines).quality == if k < 0 then "" else QualityText(iwLines[k])
  {
    if iwLines != [] {
      var prefix := iwLines[..|iwLines| - 1];
      CurrentQualityIsLastQuality(prefix);
      assert forall j :: 0 <= j < |prefix| ==> prefix[j] == iwLines[j];
    }
  }

  /** The address shown is the last `inet addr` line's, and empty when no line has one. */
  lemma {:induction false} CurrentIpIsLastInet(ipLines: seq<string>)
    requires AllIpCuttable(ipLines)
    ensures var k := LastWith(ipLines, "inet addr");
            Ip(ipLines) == if k < 0 then "" else IpText(ipLines[k], 1)
  {
    if ipLines != [] {
      var prefix := ipLines[..|ipLines| - 1];
      CurrentIpIsLastInet(prefix);
      assert forall j :: 0 <= j < |prefix| ==> prefix[j] == ipLines[j];
    }
  }

  /** The body of the `iwlist` loop. */
  method ReadInfoLine(wSSID: string, wChannel: string, wQuality: string, currentLine: string)
    returns (ssid': string, channel': string, quality': string)
    requires InfoCuttable(currentLine)
    ensures WifiInfo(ssid', channel', quality', "") == InfoLine(WifiInfo(wSSID, wChannel, wQuality, ""), currentLine)
  {
    ssid', channel', quality' := wSSID, wChannel, wQuality;
    if Contains(currentLine, "ESSID") {
      var rest := currentLine[PosOf(currentLine, "ESSID") + 6..];
      ssid' := Substr(rest, 1, Find(rest, "\n") - 2);
    }
    if Contains(currentLine, "Channel") {
      var rest := currentLine[PosOf(currentLine, "Channel") + 8..] + " ";
      channel' := Substr(rest, 0, Find(rest, "\n") - 1);
    }
    if Contains(currentLine, "Quality") {
      var rest := currentLine[PosOf(currentLine, "Quality")..];
      quality' := Substr(rest, 0, Find(rest, "\n"));
    }
  }

  /** "SHOW CURRENT WIFI INFO": the loop over `iwlist` output, then the loop over `ifconfig wlan0` output. */
  method CurrentWifiInfo(iwLines: seq<string>, ipLines: seq<string>) returns (info: WifiInfo)
    requires AllInfoCuttable(iwLines) && AllIpCuttable(ipLines)
    ensures info == Info(iwLines).(ip := Ip(ipLines))
  {
    var wSSID, wChannel, wQuality, wIP := "", "", "", "";
    var i := 0;
    while i < |iwLines|
      invariant 0 <= i <= |iwLines|
      invariant AllInfoCuttable(iwLines[..i])
      invariant WifiInfo(wSSID, wChannel, wQuality, "") == Info(iwLines[..i])
    {
      assert iwLines[..i + 1][..i] == iwLines[..i];
      wSSID, wChannel, wQuality := ReadInfoLine(wSSID, wChannel, wQuality, iwLines[i]);
      i := i + 1;
    }
    assert iwLines[..i] == iwLines;
    wIP := CurrentIp(ipLines);
    info := WifiInfo(wSSID, wChannel, wQuality, wIP);
  }

  /** The loop over the output of `ifconfig wlan0`: the address of the last `inet addr` line. */
  method CurrentIp(ipLines: seq<string>) returns (wIP: string)
    requires AllIpCuttable(ipLines)
    ensures wIP == Ip(ipLines)
  {
    wIP := "";
    var i := 0;
    while i < |ipLines|
      invariant 0 <= i <= |ipLines|
      invariant AllIpCuttable(ipLines[..i])
      invariant wIP == Ip(ipLines[..i])
    {
      var currentLine := ipLines[i];
      assert ipLines[..i + 1][..i] == ipLines[..i];
      if Contains(currentLine, "inet addr") {
        var ip := Substr(currentLine, PosOf(currentLine, "inet addr") + 10, 42);
        wIP := Substr(ip, 0, Find(ip, "Bcast") - 1);
      }
      i := i + 1;
    }
    assert ipLines[..i] == ipLines;
  }

  // =====================================================================
  // The menu itself

  /** What the network menu does with an input the base component did not take. */
  datatype MenuReaction = Delegated | Close | Ignored

  /** `input`: the base component first; then a press of "b" or "start" closes the menu. */
  function MenuInput(input: Input, delegated: bool): (r: MenuReaction)
    ensures r == Delegated <==> delegated
    ensures r == Close <==> !delegated && (input.IsMappedTo("b") || input.IsMappedTo("start")) && input.IsPress()
  {
    if delegated then Delegated
    else if (input.IsMappedTo("b") || input.IsMappedTo("start")) && input.IsPress() then Close
    else Ignored
  }

  /** `getHelpPrompts`: button and action, in the order shown. */
  const HelpPrompts: seq<(string, string)> := [("up/down", "choose"), ("a", "select"), ("start", "close")]

  /** The prompt that says a button closes the menu tells the truth: pressing that button alone closes it. */
  lemma ClosePromptIsHonest(value: int)
    requires value != 0
    ensures forall k :: 0 <= k < |HelpPrompts| && HelpPrompts[k].1 == "close" ==>
              MenuInput(Input({HelpPrompts[k].0}, value), false) == Close
  {
  }
}
