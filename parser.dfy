/** The agent's configuration loader (src/parser.c): nineteen built-in
    monitored paths, then one entry per well-formed line of the user's
    configuration file, collected in an array that doubles when full. */
module Parser {
  import opened Wrappers
  import opened Config

  // ---------------------------------------------------------------------
  // The built-in entries.
  // ---------------------------------------------------------------------

  /** The capacity `parse_config` allocates before anything is added. */
  const INITIAL_CAPACITY: nat := 8

  /** `add_default_entries`' table, in order. */
  const DEFAULTS: seq<ConfigEntry> := [
    ConfigEntry(CONFIG_PATH, HashFile, AlertRed),
    ConfigEntry("/etc/shadow", HashFile, AlertRed),
    ConfigEntry("/etc/shadow", HashLine, AlertRed),
    ConfigEntry("/etc/passwd", HashFile, AlertYellow),
    ConfigEntry("/etc/group", HashFile, AlertYellow),
    ConfigEntry("/etc/gshadow", HashFile, AlertRed),
    ConfigEntry("/etc/sudoers", HashFile, AlertRed),
    ConfigEntry("/etc/sudoers.d/", HashDir, AlertRed),
    ConfigEntry("/etc/ssh/sshd_config", HashFile, AlertRed),
    ConfigEntry("/etc/ssh/ssh_config", HashFile, AlertYellow),
    ConfigEntry("/etc/systemd/system/", HashDir, AlertRed),
    ConfigEntry("/etc/sysctl.conf", HashFile, AlertYellow),
    ConfigEntry("/etc/hostname", HashFile, AlertGreen),
    ConfigEntry("/etc/hosts", HashFile, AlertGreen),
    ConfigEntry("/etc/resolv.conf", HashFile, AlertGreen),
    ConfigEntry("/etc/crontab", HashFile, AlertRed),
    ConfigEntry("/etc/ssl/certs/", HashDir, AlertYellow),
    ConfigEntry("/etc/pki/", HashDir, AlertYellow),
    ConfigEntry("/etc/pam.d/", HashDir, AlertRed)]

  /** There are nineteen defaults, the agent's own configuration file first. */
  lemma DefaultsShape()
    ensures |DEFAULTS| == 19 && DEFAULTS[0].path == CONFIG_PATH
  {
  }

  // ---------------------------------------------------------------------
  // Capacity doubling.
  // ---------------------------------------------------------------------

  /** The capacity after the growth test that precedes every append. */
  function Grown(capacity: nat, count: nat): nat {
    if count >= capacity then 2 * capacity else capacity
  }

  /** The capacity after `n` appends to an array holding `count` entries. */
  function CapacityAfter(capacity: nat, count: nat, n: nat): nat {
    if n == 0 then capacity
    else Grown(CapacityAfter(capacity, count, n - 1), count + n - 1)
  }

  /** Doubling keeps room for every append, and never allocates twice what is
      needed unless nothing had to grow. */
  lemma {:induction false} CapacityAfterBounds(capacity: nat, count: nat, n: nat)
    requires 0 < capacity && count <= capacity
    ensures count + n <= CapacityAfter(capacity, count, n)
    ensures CapacityAfter(capacity, count, n) == capacity || CapacityAfter(capacity, count, n) < 2 * (count + n)
  {
    if n > 0 {
      CapacityAfterBounds(capacity, count, n - 1);
    }
  }

  /** From the initial capacity, the defaults grow the array twice, when
      the ninth and the seventeenth entries are appended, leaving 32 slots. */
  lemma DefaultsCapacity()
    ensures CapacityAfter(INITIAL_CAPACITY, 0, |DEFAULTS|) == 32
  {
    assert CapacityAfter(8, 0, 8) == 8 by {
      assert CapacityAfter(8, 0, 1) == 8;
      assert CapacityAfter(8, 0, 2) == 8;
      assert CapacityAfter(8, 0, 3) == 8;
      assert CapacityAfter(8, 0, 4) == 8;
      assert CapacityAfter(8, 0, 5) == 8;
      assert CapacityAfter(8, 0, 6) == 8;
      assert CapacityAfter(8, 0, 7) == 8;
    }
    assert CapacityAfter(8, 0, 16) == 16 by {
      assert CapacityAfter(8, 0, 9) == 16;
      assert CapacityAfter(8, 0, 10) == 16;
      assert CapacityAfter(8, 0, 11) == 16;
      assert CapacityAfter(8, 0, 12) == 16;
      assert CapacityAfter(8, 0, 13) == 16;
      assert CapacityAfter(8, 0, 14) == 16;
      assert CapacityAfter(8, 0, 15) == 16;
    }
    assert CapacityAfter(8, 0, 17) == 32;
    assert CapacityAfter(8, 0, 18) == 32;
  }

  // ---------------------------------------------------------------------
  // One line of the user's file.
  // ---------------------------------------------------------------------

  /** `isspace` in the C locale. */
  predicate IsSpace(c: char) {
    c == ' ' || '\t' <= c <= '\r'
  }

  predicate AllSpace(s: string) {
    forall k :: 0 <= k < |s| ==> IsSpace(s[k])
  }

  /** The text before the first `stop` character: what `strlen` measures when
      `stop` is NUL, and what remains of a line once `line[strcspn(line,
      "\n")] = '\0'` has cut it at its newline. */
  function TextBefore(s: string, stop: char): string {
    if s == [] || s[0] == stop then []
    else [s[0]] + TextBefore(s[1..], stop)
  }

  /** `TextBefore` is the longest prefix free of `stop`. */
  lemma {:induction false} TextBeforeCuts(s: string, stop: char)
    ensures TextBefore(s, stop) <= s && stop !in TextBefore(s, stop)
    ensures |TextBefore(s, stop)| < |s| ==> s[|TextBefore(s, stop)|] == stop
  {
    if s != [] && s[0] != stop {
      TextBeforeCuts(s[1..], stop);
    }
  }

  /** The filter applied before anything is parsed: a comment, or a line
      shorter than three characters counting its newline. */
  predicate Skipped(text: string) {
    |text| < 3 || text[0] == '#'
  }

  /** What `sscanf` stores from a line it accepts. */
  datatype Fields = Fields(path: string, level: char, alert: char)

  /** The first position at or after `i` that is not white space. */
  function SkipSpace(s: string, i: nat): (j: nat)
    requires i <= |s|
    ensures i <= j <= |s|
    decreases |s| - i
  {
    if i == |s| || !IsSpace(s[i]) then i else SkipSpace(s, i + 1)
  }

  /** Skipping passes only white space and stops at the end of the text or
      at a character that is not white space. */
  lemma {:induction false} SkipSpaceSkips(s: string, i: nat)
    requires i <= |s|
    ensures forall k :: i <= k < SkipSpace(s, i) ==> IsSpace(s[k])
    ensures SkipSpace(s, i) == |s| || !IsSpace(s[SkipSpace(s, i)])
    decreases |s| - i
  {
    if i < |s| && IsSpace(s[i]) {
      SkipSpaceSkips(s, i + 1);
    }
  }

  /** Where a `%[^,]` conversion that starts at `i` stops: at a comma, at the
      end of the text, or after `width` characters when a width is given. */
  function FieldEnd(s: string, i: nat, width: Option<nat>): (j: nat)
    requires i <= |s|
    ensures i <= j <= |s|
    decreases |s| - i
  {
    if i == |s| || s[i] == ',' || width == Some(0) then i
    else FieldEnd(s, i + 1, if width.Some? then Some(width.value - 1) else None)
  }

  /** The conversion passes only non-commas, at most `width` of them, and
      stops at the end of the text, at a comma, or when the width runs out. */
  lemma {:induction false} FieldEndStops(s: string, i: nat, width: Option<nat>)
    requires i <= |s|
    ensures forall k :: i <= k < FieldEnd(s, i, width) ==> s[k] != ','
    ensures width.Some? ==> FieldEnd(s, i, width) - i <= width.value
    ensures var j := FieldEnd(s, i, width);
      j == |s| || s[j] == ',' || (width.Some? && j - i == width.value)
    decreases |s| - i
  {
    if !(i == |s| || s[i] == ',' || width == Some(0)) {
      FieldEndStops(s, i + 1, if width.Some? then Some(width.value - 1) else None);
    }
  }

  /** `sscanf(line, " %[^,], %c, %c", ...)` returning 3, with the path
      conversion limited to `width` characters when a width is given: skip
      white space, read a non-empty run of non-commas, match a comma, skip
      white space, read one character, match a comma at once, skip white
      space, read one character. Whatever follows is ignored. */
  function ScanFields(s: string, width: Option<nat>): (r: Option<Fields>)
  {
    var i := SkipSpace(s, 0);
    var j := FieldEnd(s, i, width);
    if j == i || j == |s| || s[j] != ',' then None
    else
      var k := SkipSpace(s, j + 1);
      if k + 1 >= |s| || s[k + 1] != ',' then None
      else
        var m := SkipSpace(s, k + 2);
        if m == |s| then None
        else Some(Fields(s[i..j], s[k], s[m]))
  }

  /** The scan as the source writes it: `%[^,]` with no width, although it
      stores into `char path[PATH_MAX]`. */
  function ScanAsWritten(s: string): Option<Fields> {
    ScanFields(s, None)
  }

  /** The scan with the width the destination allows (`%4095[^,]`). */
  function Scan(s: string): Option<Fields> {
    ScanFields(s, Some(PATH_MAX - 1))
  }

  /** `s` is, in order: white space, a path that starts with neither white
      space nor a comma and holds no comma, a comma, white space, the level
      character, a comma, white space, the alert character, anything. */
  predicate Layout(s: string, lead: string, f: Fields, gap1: string, gap2: string, rest: string) {
    && s == lead + f.path + [','] + gap1 + [f.level, ','] + gap2 + [f.alert] + rest
    && AllSpace(lead) && AllSpace(gap1) && AllSpace(gap2)
    && 0 < |f.path| && ',' !in f.path && !IsSpace(f.path[0])
    && !IsSpace(f.level) && !IsSpace(f.alert)
  }

  /** Skipping white space from `i` stops at `j` when everything in
      between is white space and `s[j]` is not. */
  lemma {:induction false} SkipSpaceStopsAt(s: string, i: nat, j: nat)
    requires i <= j <= |s|
    requires forall k :: i <= k < j ==> IsSpace(s[k])
    requires j == |s| || !IsSpace(s[j])
    ensures SkipSpace(s, i) == j
    decreases j - i
  {
    if i < j {
      SkipSpaceStopsAt(s, i + 1, j);
    }
  }

  /** A `%[^,]` conversion from `i` stops at the first comma `j` when the
      width allows that many characters. */
  lemma {:induction false} FieldEndStopsAt(s: string, i: nat, j: nat, width: Option<nat>)
    requires i <= j < |s| && s[j] == ','
    requires forall k :: i <= k < j ==> s[k] != ','
    requires width.None? || j - i <= width.value
    ensures FieldEnd(s, i, width) == j
    decreases j - i
  {
    if i < j {
      FieldEndStopsAt(s, i + 1, j, if width.Some? then Some(width.value - 1) else None);
    }
  }

  /** The scan accepts a line whose white-space runs, path, commas and
      characters sit at positions `i` < `j` < `k` < `m`, with the fields
      those positions delimit. */
  lemma ScanAt(s: string, i: nat, j: nat, k: nat, m: nat, width: Option<nat>)
    requires i < j < k && k + 2 <= m < |s|
    requires forall x :: 0 <= x < i ==> IsSpace(s[x])
    requires forall x :: i <= x < j ==> s[x] != ','
    requires forall x :: j + 1 <= x < k ==> IsSpace(s[x])
    requires forall x :: k + 2 <= x < m ==> IsSpace(s[x])
    requires !IsSpace(s[i]) && s[j] == ',' && !IsSpace(s[k]) && s[k + 1] == ',' && !IsSpace(s[m])
    requires width.None? || j - i <= width.value
    ensures ScanFields(s, width) == Some(Fields(s[i..j], s[k], s[m]))
  {
    SkipSpaceStopsAt(s, 0, i);
    FieldEndStopsAt(s, i, j, width);
    SkipSpaceStopsAt(s, j + 1, k);
    SkipSpaceStopsAt(s, k + 2, m);
  }

  /** Every line of that shape is accepted, with exactly its fields, when its
      path fits the width. */
  lemma ScanAcceptsLayout(s: string, lead: string, f: Fields, gap1: string, gap2: string, rest: string, width: Option<nat>)
    requires Layout(s, lead, f, gap1, gap2, rest)
    requires width.None? || |f.path| <= width.value
    ensures ScanFields(s, width) == Some(f)
  {
    var i := |lead|;
    var j := i + |f.path|;
    var k := j + 1 + |gap1|;
    var m := k + 2 + |gap2|;
    assert s[..i] == lead;
    assert s[i..j] == f.path;
    assert s[j + 1..k] == gap1;
    assert s[k + 2..m] == gap2;
    assert s[j] == ',' && s[k] == f.level && s[k + 1] == ',' && s[m] == f.alert;
    ScanAt(s, i, j, k, m, width);
  }

  /** Every line the scan accepts has that shape, around exactly the fields
      it returns, and its path is no longer than the width. */
  lemma ScanFindsLayout(s: string, width: Option<nat>) returns (lead: string, gap1: string, gap2: string, rest: string)
    requires ScanFields(s, width).Some?
    ensures Layout(s, lead, ScanFields(s, width).value, gap1, gap2, rest)
    ensures width.Some? ==> |ScanFields(s, width).value.path| <= width.value
  {
    var f := ScanFields(s, width).value;
    var i := SkipSpace(s, 0);
    var j := FieldEnd(s, i, width);
    var k := SkipSpace(s, j + 1);
    assert i < j < |s| && s[j] == ',' && k + 1 < |s| && s[k + 1] == ',';
    var m := SkipSpace(s, k + 2);
    assert m < |s| && f == Fields(s[i..j], s[k], s[m]);
    SkipSpaceSkips(s, 0);
    FieldEndStops(s, i, width);
    SkipSpaceSkips(s, j + 1);
    SkipSpaceSkips(s, k + 2);
    LayoutAt(s, i, j, k, m);
    lead, gap1, gap2, rest := s[..i], s[j + 1..k], s[k + 2..m], s[m + 1..];
  }

  /** The converse of `ScanAt`: positions with those properties cut the text
      into the layout. */
  lemma LayoutAt(s: string, i: nat, j: nat, k: nat, m: nat)
    requires i < j < k && k + 2 <= m < |s|
    requires forall x :: 0 <= x < i ==> IsSpace(s[x])
    requires forall x :: i <= x < j ==> s[x] != ','
    requires forall x :: j + 1 <= x < k ==> IsSpace(s[x])
    requires forall x :: k + 2 <= x < m ==> IsSpace(s[x])
    requires !IsSpace(s[i]) && s[j] == ',' && !IsSpace(s[k]) && s[k + 1] == ',' && !IsSpace(s[m])
    ensures Layout(s, s[..i], Fields(s[i..j], s[k], s[m]), s[j + 1..k], s[k + 2..m], s[m + 1..])
  {
    assert s[..i] + s[i..j] == s[..j];
    assert s[..j] + [','] == s[..j + 1];
    assert s[..j + 1] + s[j + 1..k] == s[..k];
    assert s[..k] + [s[k], s[k + 1]] == s[..k + 2];
    assert s[..k + 2] + s[k + 2..m] == s[..m];
    assert s[..m] + [s[m]] == s[..m + 1];
    assert s[..m + 1] + s[m + 1..] == s;
  }

  /** A field of PATH_MAX characters: the longest line of this shape still
      fits `fgets`' buffer of PATH_MAX + 16, and the scan as written accepts
      it, so it stores PATH_MAX characters and a NUL into `char
      path[PATH_MAX]`. */
  lemma OverlongPathAsWritten()
    ensures var line := seq(PATH_MAX, _ => 'a') + ",f,r";
      && |line + "\n"| < PATH_MAX + 16
      && ScanAsWritten(line) == Some(Fields(seq(PATH_MAX, _ => 'a'), 'f', 'r'))
      && |ScanAsWritten(line).value.path| + 1 > PATH_MAX
  {
    var path := seq(PATH_MAX, _ => 'a');
    var line := path + ",f,r";
    ScanAt(line, 0, PATH_MAX, PATH_MAX + 1, PATH_MAX + 3, None);
    assert line[0..PATH_MAX] == path;
  }

  /** The width-limited scan rejects that line, and never yields a path that
      overflows the field. */
  lemma ScanBoundsPath(s: string)
    ensures Scan(s).Some? ==> |Scan(s).value.path| < PATH_MAX
    ensures Scan(seq(PATH_MAX, _ => 'a') + ",f,r").None?
  {
    if Scan(s).Some? {
      var _, _, _, _ := ScanFindsLayout(s, Some(PATH_MAX - 1));
    }
    var line := seq(PATH_MAX, _ => 'a') + ",f,r";
    SkipSpaceSkips(line, 0);
    FieldEndStops(line, 0, Some(PATH_MAX - 1));
    assert SkipSpace(line, 0) == 0;
    assert FieldEnd(line, 0, Some(PATH_MAX - 1)) == PATH_MAX - 1;
  }

  /** The level switch. */
  function LevelOf(c: char): (r: Option<HashLevel>)
    ensures r.Some? <==> c in "dfl"
  {
    match c
    case 'd' => Some(HashDir)
    case 'f' => Some(HashFile)
    case 'l' => Some(HashLine)
    case _ => None
  }

  /** The alert switch. */
  function AlertOf(c: char): (r: Option<AlertLevel>)
    ensures r.Some? <==> c in "ryg"
  {
    match c
    case 'r' => Some(AlertRed)
    case 'y' => Some(AlertYellow)
    case 'g' => Some(AlertGreen)
    case _ => None
  }

  /** The character a configuration file uses for each level. */
  function LevelChar(l: HashLevel): char {
    match l
    case HashDir => 'd'
    case HashFile => 'f'
    case HashLine => 'l'
  }

  /** The character a configuration file uses for each alert. */
  function AlertChar(a: AlertLevel): char {
    match a
    case AlertRed => 'r'
    case AlertYellow => 'y'
    case AlertGreen => 'g'
  }

  /** Each switch accepts exactly one character per value, and only those
      three characters. */
  lemma CharsMapExactly(c: char, l: HashLevel, a: AlertLevel)
    ensures LevelOf(c) == Some(l) <==> c == LevelChar(l)
    ensures AlertOf(c) == Some(a) <==> c == AlertChar(a)
    ensures LevelOf(c).Some? <==> c in "dfl"
    ensures AlertOf(c).Some? <==> c in "ryg"
  {
  }

  /** `strncpy(dst, path, PATH_MAX - 1)` followed by a NUL in the last slot:
      at most PATH_MAX - 1 characters are kept. */
  function StoredPath(path: string): (r: string)
    ensures |r| <= PATH_MAX - 1 && r <= path
    ensures |path| < PATH_MAX ==> r == path
  {
    if |path| < PATH_MAX then path else path[..PATH_MAX - 1]
  }

  /** The entry a scanned line describes, when both its characters are
      known: the path as `strncpy` stores it, the level, the alert. */
  function EntryOf(f: Fields): (r: Option<ConfigEntry>)
    ensures r.Some? <==> LevelOf(f.level).Some? && AlertOf(f.alert).Some?
    ensures r.Some? ==> r.value == ConfigEntry(StoredPath(f.path), LevelOf(f.level).value, AlertOf(f.alert).value)
  {
    match (LevelOf(f.level), AlertOf(f.alert))
    case (Some(l), Some(a)) => Some(ConfigEntry(StoredPath(f.path), l, a))
    case _ => None
  }

  /** What one line read by `fgets` contributes: nothing when it is filtered
      out, fails the scan or names an unknown level or alert; otherwise the
      entry it describes, whose path fits the field and holds no comma. */
  function ParseLine(raw: string): (r: Option<ConfigEntry>)
  {
    var text := TextBefore(raw, '\0');
    if Skipped(text) then None
    else
      match Scan(TextBefore(text, '\n'))
      case None => None
      case Some(f) => EntryOf(f)
  }

  /** The entries the accepted lines describe, in file order. */
  function Accepted(lines: seq<string>): seq<ConfigEntry> {
    if lines == [] then []
    else
      var last := ParseLine(lines[|lines| - 1]);
      Accepted(lines[..|lines| - 1]) + (if last.Some? then [last.value] else [])
  }

  /** Whether a line passes the filter and the scan, so that the growth test
      runs for it even if its level or alert is then rejected. */
  predicate Scanned(raw: string) {
    var text := TextBefore(raw, '\0');
    !Skipped(text) && Scan(TextBefore(text, '\n')).Some?
  }

  /** The capacity after loading `lines` into an array of `capacity` slots
      holding `count` entries: the growth test runs once per scanned line,
      against the count of the lines accepted before it. */
  function LoadedCapacity(capacity: nat, count: nat, lines: seq<string>): nat {
    if lines == [] then capacity
    else
      var init := lines[..|lines| - 1];
      var c := LoadedCapacity(capacity, count, init);
      if Scanned(lines[|lines| - 1]) then Grown(c, count + |Accepted(init)|) else c
  }

  /** Loading never shrinks the array and always leaves room for what it
      holds. */
  lemma {:induction false} LoadKeepsRoom(capacity: nat, count: nat, lines: seq<string>)
    requires 0 < capacity && count <= capacity
    ensures capacity <= LoadedCapacity(capacity, count, lines)
    ensures count + |Accepted(lines)| <= LoadedCapacity(capacity, count, lines)
  {
    if lines != [] {
      LoadKeepsRoom(capacity, count, lines[..|lines| - 1]);
    }
  }

  /** A line as a configuration file would hold an entry. */
  function FormatLine(e: ConfigEntry): string {
    e.path + ", " + [LevelChar(e.hashLevel)] + ", " + [AlertChar(e.alertLevel)] + "\n"
  }

  /** An entry a file can describe: a path that fits the field, holds no
      comma, NUL or newline, and starts with neither white space nor `#`. */
  predicate Writable(e: ConfigEntry) {
    && 0 < |e.path| < PATH_MAX
    && ',' !in e.path && '\0' !in e.path && '\n' !in e.path
    && !IsSpace(e.path[0]) && e.path[0] != '#'
  }

  /** An accepted line passed the filter, and the entry's path fits the
      field and holds no comma. */
  lemma ParseLineBounds(raw: string)
    ensures ParseLine(raw).Some? ==> !Skipped(TextBefore(raw, '\0'))
    ensures ParseLine(raw).Some? ==> 0 < |ParseLine(raw).value.path| < PATH_MAX && ',' !in ParseLine(raw).value.path
  {
    var text := TextBefore(raw, '\0');
    if ParseLine(raw).Some? {
      var _, _, _, _ := ScanFindsLayout(TextBefore(text, '\n'), Some(PATH_MAX - 1));
    }
  }

  /** A line that passes the filter and scans contributes the entry its
      fields describe, if any. */
  lemma ParseLineOf(raw: string, f: Fields)
    requires !Skipped(TextBefore(raw, '\0'))
    requires Scan(TextBefore(TextBefore(raw, '\0'), '\n')) == Some(f)
    ensures ParseLine(raw) == EntryOf(f)
  {
  }

  /** Reading back a formatted entry gives the entry. */
  lemma ConfigLineRoundTrip(e: ConfigEntry)
    requires Writable(e)
    ensures ParseLine(FormatLine(e)) == Some(e)
  {
    var raw := FormatLine(e);
    var lc, ac := LevelChar(e.hashLevel), AlertChar(e.alertLevel);
    var line := e.path + ", " + [lc] + ", " + [ac];
    assert raw == line + "\n";
    assert '\0' !in raw && '\n' !in line by { FormattedLineScans(e); }
    assert raw + [] == raw;
    TextBeforeStops(raw, [], '\0');
    TextBeforeStops(line, "\n", '\n');
    assert !Skipped(raw) by { assert raw[0] == e.path[0]; }
    var f := Fields(e.path, lc, ac);
    FormattedLineScans(e);
    CharsMapExactly(lc, e.hashLevel, e.alertLevel);
    assert EntryOf(f) == Some(e);
    ParseLineOf(raw, f);
  }

  /** The text of a formatted entry, before its newline, scans into the
      entry's path and characters, and holds neither a NUL nor a newline. */
  lemma FormattedLineScans(e: ConfigEntry)
    requires Writable(e)
    ensures var line := e.path + ", " + [LevelChar(e.hashLevel)] + ", " + [AlertChar(e.alertLevel)];
      && Scan(line) == Some(Fields(e.path, LevelChar(e.hashLevel), AlertChar(e.alertLevel)))
      && '\0' !in line && '\n' !in line
  {
    var lc, ac := LevelChar(e.hashLevel), AlertChar(e.alertLevel);
    var line := e.path + ", " + [lc] + ", " + [ac];
    var j := |e.path|;
    assert line[j..] == [',', ' ', lc, ',', ' ', ac];
    assert line[..j] == e.path;
    ScanAt(line, 0, j, j + 2, j + 5, Some(PATH_MAX - 1));
    assert line[0..j] == e.path;
  }

  /** `TextBefore` keeps a text with no `stop` and drops what follows it. */
  lemma {:induction false} TextBeforeStops(s: string, tail: string, stop: char)
    requires stop !in s && (tail == [] || tail[0] == stop)
    ensures TextBefore(s + tail, stop) == s
  {
    if s != [] {
      assert (s + tail)[1..] == s[1..] + tail;
      TextBeforeStops(s[1..], tail, stop);
    }
  }

  /** A file holding one formatted line per entry. */
  function FormatAll(es: seq<ConfigEntry>): seq<string> {
    if es == [] then [] else FormatAll(es[..|es| - 1]) + [FormatLine(es[|es| - 1])]
  }

  /** Loading a file written from writable entries gives back exactly those
      entries, in order. */
  lemma {:induction false} FormatAllRoundTrip(es: seq<ConfigEntry>)
    requires forall e :: e in es ==> Writable(e)
    ensures Accepted(FormatAll(es)) == es
  {
    if es != [] {
      var init := es[..|es| - 1];
      var lines := FormatAll(es);
      assert lines[..|lines| - 1] == FormatAll(init);
      assert forall e :: e in init ==> e in es;
      FormatAllRoundTrip(init);
      ConfigLineRoundTrip(es[|es| - 1]);
      assert init + [es[|es| - 1]] == es;
    }
  }

  /** Comment lines and lines shorter than three characters contribute
      nothing and never reach the growth test. */
  lemma FilteredLinesSkipped(raw: string)
    requires (raw != [] && raw[0] == '#') || |TextBefore(raw, '\0')| < 3
    ensures ParseLine(raw).None? && !Scanned(raw)
  {
    TextBeforeCuts(raw, '\0');
  }

  /** A line that scans but names an unknown level or alert contributes
      nothing, although the growth test has already run for it. */
  lemma UnknownCharsRejected(raw: string)
    requires Scanned(raw)
    requires var f := Scan(TextBefore(TextBefore(raw, '\0'), '\n')).value;
      LevelOf(f.level).None? || AlertOf(f.alert).None?
    ensures ParseLine(raw).None?
  {
  }

  // ---------------------------------------------------------------------
  // The growable array.
  // ---------------------------------------------------------------------

  /** What a slot holds before anything is written to it (C leaves it
      uninitialised; nothing reads it). */
  const UNSET: ConfigEntry := ConfigEntry([], HashDir, AlertRed)

  /** The entries array with its count and capacity, as `parse_config` keeps
      them and passes them to the two loaders by pointer. */
  class ConfigTable {
    var entries: array<ConfigEntry>
    var count: nat
    var capacity: nat

    ghost predicate Valid()
      reads this
    {
      entries.Length == capacity && 0 < capacity && count <= capacity
    }

    /** The first `count` slots: the entries loaded so far. */
    function Contents(): seq<ConfigEntry>
      reads this, entries
      requires Valid()
    {
      entries[..count]
    }

    /** `safe_malloc(capacity * sizeof(config_entry_t))` with count 0. */
    constructor ()
      ensures Valid() && count == 0 && capacity == INITIAL_CAPACITY && Contents() == []
      ensures fresh(entries)
    {
      entries := new ConfigEntry[INITIAL_CAPACITY](_ => UNSET);
      count := 0;
      capacity := INITIAL_CAPACITY;
    }

    /** The test before every write: when the array is full, double the
        capacity and move the entries to a new allocation. */
    method Reserve()
      requires Valid()
      modifies this
      ensures Valid() && count == old(count) && Contents() == old(Contents())
      ensures capacity == Grown(old(capacity), old(count)) && count < capacity
      ensures entries == old(entries) || fresh(entries)
    {
      if count >= capacity {
        var grown := new ConfigEntry[2 * capacity](_ => UNSET);
        forall k | 0 <= k < count {
          grown[k] := entries[k];
        }
        entries, capacity := grown, 2 * capacity;
      }
    }

    /** `add_default_entries`: append the nineteen defaults in order. */
    method AddDefaultEntries()
      requires Valid()
      modifies this, entries
      ensures Valid() && Contents() == old(Contents()) + DEFAULTS
      ensures capacity == CapacityAfter(old(capacity), old(count), |DEFAULTS|)
      ensures entries == old(entries) || fresh(entries)
    {
      AppendAll(DEFAULTS);
    }

    /** `add_default_entries`' loop over its table. */
    method AppendAll(items: seq<ConfigEntry>)
      requires Valid()
      modifies this, entries
      ensures Valid() && Contents() == old(Contents()) + items
      ensures capacity == CapacityAfter(old(capacity), old(count), |items|)
      ensures entries == old(entries) || fresh(entries)
    {
      for i := 0 to |items|
        invariant Valid() && count == old(count) + i
        invariant Contents() == old(Contents()) + items[..i]
        invariant capacity == CapacityAfter(old(capacity), old(count), i)
        invariant entries == old(entries) || fresh(entries)
      {
        Append(items[i]);
        assert items[..i + 1] == items[..i] + [items[i]];
      }
    }

    /** One step of `add_default_entries`' loop: the growth test, then the
        entry goes into the slot at `count`. */
    method Append(e: ConfigEntry)
      requires Valid()
      modifies this, entries
      ensures Valid() && Contents() == old(Contents()) + [e]
      ensures capacity == Grown(old(capacity), old(count))
      ensures entries == old(entries) || fresh(entries)
    {
      Reserve();
      entries[count] := e;
      count := count + 1;
    }

    /** The body of `load_user_config`'s loop once a line has scanned: the
        growth test, then the slot at `count` is written field by field, and
        `count` advances only when both characters are known. A rejected
        line's partial write stays beyond `count`, where the next accepted
        line overwrites it. */
    method Store(f: Fields) returns (stored: bool)
      requires Valid()
      modifies this, entries
      ensures Valid() && capacity == Grown(old(capacity), old(count))
      ensures stored <==> EntryOf(f).Some?
      ensures Contents() == old(Contents()) + (if stored then [EntryOf(f).value] else [])
      ensures entries == old(entries) || fresh(entries)
    {
      Reserve();
      entries[count] := entries[count].(path := StoredPath(f.path));
      var level := LevelOf(f.level);
      if level.None? {
        return false;
      }
      entries[count] := entries[count].(hashLevel := level.value);
      var alert := AlertOf(f.alert);
      if alert.None? {
        return false;
      }
      entries[count] := entries[count].(alertLevel := alert.value);
      count := count + 1;
      assert entries[..count] == old(Contents()) + [entries[count - 1]];
      return true;
    }

    /** The body of `load_user_config`'s loop for one line read by
        `fgets`: the length and comment filter, the newline cut, the scan,
        then `Store`. */
    method LoadLine(raw: string)
      requires Valid()
      modifies this, entries
      ensures Valid() && capacity == if Scanned(raw) then Grown(old(capacity), old(count)) else old(capacity)
      ensures Contents() == old(Contents()) + (if ParseLine(raw).Some? then [ParseLine(raw).value] else [])
      ensures entries == old(entries) || fresh(entries)
    {
      var text := TextBefore(raw, '\0');
      if |text| < 3 || text[0] == '#' {
        return;
      }
      var line := TextBefore(text, '\n');
      var fields := Scan(line);
      if fields.None? {
        return;
      }
      ParseLineOf(raw, fields.value);
      var _ := Store(fields.value);
    }

    /** `load_user_config`: nothing when the file cannot be opened;
        otherwise each line in turn. */
    method LoadUserConfig(file: Option<seq<string>>)
      requires Valid()
      modifies this, entries
      ensures Valid()
      ensures file.None? ==> Contents() == old(Contents()) && capacity == old(capacity)
      ensures file.Some? ==> Contents() == old(Contents()) + Accepted(file.value)
      ensures file.Some? ==> capacity == LoadedCapacity(old(capacity), old(count), file.value)
      ensures entries == old(entries) || fresh(entries)
    {
      if file.None? {
        return;
      }
      var lines := file.value;
      for i := 0 to |lines|
        invariant Valid()
        invariant Contents() == old(Contents()) + Accepted(lines[..i])
        invariant capacity == LoadedCapacity(old(capacity), old(count), lines[..i])
        invariant entries == old(entries) || fresh(entries)
      {
        LineStep(old(capacity), old(count), lines, i);
        var added := if ParseLine(lines[i]).Some? then [ParseLine(lines[i]).value] else [];
        assert old(Contents()) + Accepted(lines[..i]) + added == old(Contents()) + Accepted(lines[..i + 1]);
        LoadLine(lines[i]);
      }
      assert lines[..|lines|] == lines;
    }
  }

  /** One more line extends `Accepted` and `LoadedCapacity` by that line
      alone. */
  lemma LineStep(capacity: nat, count: nat, lines: seq<string>, i: nat)
    requires i < |lines|
    ensures Accepted(lines[..i + 1]) == Accepted(lines[..i]) + (if ParseLine(lines[i]).Some? then [ParseLine(lines[i]).value] else [])
    ensures LoadedCapacity(capacity, count, lines[..i + 1])
      == if Scanned(lines[i]) then Grown(LoadedCapacity(capacity, count, lines[..i]), count + |Accepted(lines[..i])|)
         else LoadedCapacity(capacity, count, lines[..i])
  {
    assert lines[..i + 1][..i] == lines[..i];
  }

  /** The lines of the user's file, if it could be opened. */
  function UserEntries(file: Option<seq<string>>): seq<ConfigEntry> {
    if file.Some? then Accepted(file.value) else []
  }

  /** `parse_config`: the defaults, then the user's entries; the count is
      nineteen more than the number of accepted lines. */
  method ParseConfig(file: Option<seq<string>>) returns (entries: array<ConfigEntry>, count: nat)
    ensures count <= entries.Length
    ensures entries[..count] == DEFAULTS + UserEntries(file)
    ensures count == 19 + |UserEntries(file)|
    ensures entries.Length == if file.Some? then LoadedCapacity(32, 19, file.value) else 32
  {
    DefaultsShape();
    DefaultsCapacity();
    var table := new ConfigTable();
    table.AddDefaultEntries();
    table.LoadUserConfig(file);
    entries, count := table.entries, table.count;
  }
}
