/** The agent's hashing helpers (src/hashing.c): the lower-case hex encoding
    of digests, the exclusion scan, the name order of a directory walk, and
    the dispatch of every configured entry to the hasher its level names.
    Digests, `fnmatch` and `stat` are parameters: they come from OpenSSL and
    the C library. */
module Hashing {
  import opened Wrappers
  import opened Config
  import opened Parser

  /** An `unsigned char`. */
  type byte = x: int | 0 <= x < 256

  // ---------------------------------------------------------------------
  // Hex encoding.
  // ---------------------------------------------------------------------

  /** `binary_to_hex`'s digit table. */
  const HEX_DIGITS: string := "0123456789abcdef"

  /** The digit for a nibble. */
  function HexDigit(n: int): char
    requires 0 <= n < 16
  {
    HEX_DIGITS[n]
  }

  /** The two digits for one byte: `(b >> 4) & 0xF`, which for an unsigned
      char is `b / 16`, then `b & 0xF`, which is `b % 16`. */
  function HexPair(b: byte): string {
    [HexDigit(b / 16), HexDigit(b % 16)]
  }

  /** The encoding of a digest, two digits per byte, in order. */
  function Hex(d: seq<byte>): (r: string)
    ensures |r| == 2 * |d|
  {
    if d == [] then [] else Hex(d[..|d| - 1]) + HexPair(d[|d| - 1])
  }

  /** The digit pair at `2i` and `2i + 1` encodes byte `i`: high nibble
      first. */
  lemma {:induction false} HexAt(d: seq<byte>)
    ensures forall i :: 0 <= i < |d| ==> Hex(d)[2 * i] == HexDigit(d[i] / 16) && Hex(d)[2 * i + 1] == HexDigit(d[i] % 16)
  {
    if d != [] {
      HexAt(d[..|d| - 1]);
    }
  }

  /** Every character of an encoding is a lower-case hex digit. */
  lemma {:induction false} HexDigitsOnly(d: seq<byte>)
    ensures forall k :: 0 <= k < |Hex(d)| ==> Hex(d)[k] in HEX_DIGITS
  {
    if d != [] {
      HexDigitsOnly(d[..|d| - 1]);
    }
  }

  /** The value of a lower-case hex digit. */
  function DigitValue(c: char): (r: Option<int>)
    ensures r.Some? ==> 0 <= r.value < 16
  {
    if '0' <= c <= '9' then Some(c as int - '0' as int)
    else if 'a' <= c <= 'f' then Some(c as int - 'a' as int + 10)
    else None
  }

  /** Reading a digit back gives its nibble. */
  lemma HexDigitReads(n: int)
    requires 0 <= n < 16
    ensures DigitValue(HexDigit(n)) == Some(n)
  {
    assert HEX_DIGITS == ['0', '1', '2', '3', '4', '5', '6', '7', '8', '9', 'a', 'b', 'c', 'd', 'e', 'f'];
  }

  /** Reading a digit back gives its nibble, and only the sixteen digits
      read. */
  lemma DigitValueInverts(n: int, c: char)
    requires 0 <= n < 16
    ensures DigitValue(HexDigit(n)) == Some(n)
    ensures DigitValue(c).Some? <==> c in HEX_DIGITS
  {
    assert HEX_DIGITS == ['0', '1', '2', '3', '4', '5', '6', '7', '8', '9', 'a', 'b', 'c', 'd', 'e', 'f'];
  }

  /** Reading each digit pair as `16 * hi + lo`; `None` for an odd length or
      a character that is not a digit. */
  function Unhex(s: string): Option<seq<byte>> {
    if s == [] then Some([])
    else if |s| == 1 then None
    else
      match (Unhex(s[..|s| - 2]), DigitValue(s[|s| - 2]), DigitValue(s[|s| - 1]))
      case (Some(d), Some(hi), Some(lo)) => Some(d + [16 * hi + lo])
      case _ => None
  }

  /** Two more digits decode to one more byte. */
  lemma UnhexStep(s: string, d: seq<byte>, hi: char, lo: char)
    requires Unhex(s) == Some(d) && DigitValue(hi).Some? && DigitValue(lo).Some?
    ensures Unhex(s + [hi, lo]) == Some(d + [16 * DigitValue(hi).value + DigitValue(lo).value])
  {
    var t := s + [hi, lo];
    assert t[..|t| - 2] == s && t[|t| - 2] == hi && t[|t| - 1] == lo;
  }

  /** A byte is its high nibble times 16 plus its low nibble. */
  lemma ByteNibbles(b: byte)
    ensures 16 * (b / 16) + b % 16 == b
  {
  }

  /** Decoding an encoding recovers the digest. */
  lemma {:induction false} UnhexHex(d: seq<byte>)
    ensures Unhex(Hex(d)) == Some(d)
  {
    if d != [] {
      var init, b := d[..|d| - 1], d[|d| - 1];
      assert init + [b] == d;
      UnhexHex(init);
      UnhexHexStep(init, b);
    }
  }

  /** One more byte encodes to one more digit pair, which decodes back to it. */
  lemma UnhexHexStep(init: seq<byte>, b: byte)
    requires Unhex(Hex(init)) == Some(init)
    ensures Unhex(Hex(init + [b])) == Some(init + [b])
  {
    var hi, lo := HexDigit(b / 16), HexDigit(b % 16);
    assert Hex(init + [b]) == Hex(init) + [hi, lo] by {
      assert (init + [b])[..|init|] == init;
    }
    HexDigitReads(b / 16);
    HexDigitReads(b % 16);
    assert 16 * DigitValue(hi).value + DigitValue(lo).value == b by {
      ByteNibbles(b);
    }
    UnhexStep(Hex(init), init, hi, lo);
  }

  /** Distinct digests have distinct encodings. */
  lemma HexInjective(a: seq<byte>, b: seq<byte>)
    requires Hex(a) == Hex(b)
    ensures a == b
  {
    UnhexHex(a);
    UnhexHex(b);
  }

  /** `binary_to_hex(digest, len, out_hex)`: bytes `0 .. len - 1` of the
      digest are written as digit pairs into `out_hex`, a NUL follows them,
      nothing beyond is touched, and the result is always 0. The writes stay
      inside the `HASH_HEX_LEN + 1` characters of `out_hex` only when `len`
      is at most `SHA256_DIGEST_LENGTH`, so callers must ensure it. */
  method BinaryToHex(digest: seq<byte>, len: nat, outHex: array<char>) returns (status: int)
    requires outHex.Length == HASH_HEX_LEN + 1
    requires len <= SHA256_DIGEST_LENGTH && len <= |digest|
    modifies outHex
    ensures status == 0
    ensures outHex[..2 * len] == Hex(digest[..len]) && outHex[2 * len] == '\0'
    ensures outHex[2 * len + 1..] == old(outHex[2 * len + 1..])
  {
    for i := 0 to len
      invariant outHex[..2 * i] == Hex(digest[..i])
      invariant outHex[2 * i..] == old(outHex[2 * i..])
    {
      assert digest[..i + 1][..i] == digest[..i];
      outHex[i * 2] := HEX_DIGITS[digest[i] / 16];
      outHex[i * 2 + 1] := HEX_DIGITS[digest[i] % 16];
      assert outHex[..2 * (i + 1)] == outHex[..2 * i] + HexPair(digest[i]);
    }
    outHex[len * 2] := '\0';
    return 0;
  }

  // ---------------------------------------------------------------------
  // Exclusion.
  // ---------------------------------------------------------------------

  /** `exclude_patterns`, in order. */
  const EXCLUDE_PATTERNS: seq<string> := [
    "/etc/mtab",
    "/etc/ld.so.cache",
    "/etc/machine-id",
    "/etc/NetworkManager/*",
    "/etc/ssl/*",
    "/etc/alternatives/*",
    "/etc/systemd/system/*.wants/*",
    "/etc/pki/tls/certs/*",
    "/etc/letsencrypt/*",
    "/etc/cups/*"]

  /** Some pattern matches the path; `fnmatch(pattern, path)` holds when
      `fnmatch(pattern, path, 0)` returns 0. */
  predicate Excluded(path: string, patterns: seq<string>, fnmatch: (string, string) -> bool) {
    exists i :: 0 <= i < |patterns| && fnmatch(patterns[i], path)
  }

  /** `is_excluded`: try the patterns in order and stop at the first that
      matches. */
  method IsExcluded(path: string, patterns: seq<string>, fnmatch: (string, string) -> bool) returns (excluded: bool)
    ensures excluded <==> Excluded(path, patterns, fnmatch)
  {
    for i := 0 to |patterns|
      invariant forall k :: 0 <= k < i ==> !fnmatch(patterns[k], path)
    {
      if fnmatch(patterns[i], path) {
        return true;
      }
    }
    return false;
  }

  // ---------------------------------------------------------------------
  // Name order.
  // ---------------------------------------------------------------------

  /** `compare_names`: `strcmp` on the two names, as its sign. */
  function CompareNames(a: string, b: string): (r: int)
    ensures -1 <= r <= 1
  {
    if a == [] then (if b == [] then 0 else -1)
    else if b == [] then 1
    else if a[0] < b[0] then -1
    else if a[0] > b[0] then 1
    else CompareNames(a[1..], b[1..])
  }

  /** Names compare equal exactly when they are the same. */
  lemma {:induction false} CompareNamesZero(a: string, b: string)
    ensures CompareNames(a, b) == 0 <==> a == b
  {
    if a != [] && b != [] && a[0] == b[0] {
      CompareNamesZero(a[1..], b[1..]);
      if a[1..] == b[1..] {
        assert a == [a[0]] + a[1..] && b == [b[0]] + b[1..];
      }
    }
  }

  /** Swapping the names negates the comparison. */
  lemma {:induction false} CompareNamesFlip(a: string, b: string)
    ensures CompareNames(b, a) == -CompareNames(a, b)
  {
    if a != [] && b != [] && a[0] == b[0] {
      CompareNamesFlip(a[1..], b[1..]);
    }
  }

  /** The order is transitive. */
  lemma {:induction false} CompareNamesTrans(a: string, b: string, c: string)
    requires CompareNames(a, b) <= 0 && CompareNames(b, c) <= 0
    ensures CompareNames(a, c) <= 0
  {
    if a != [] && b != [] && c != [] && a[0] == b[0] && b[0] == c[0] {
      CompareNamesTrans(a[1..], b[1..], c[1..]);
    }
  }

  /** Ascending `compare_names` order. */
  predicate SortedByName(s: seq<string>) {
    forall i, j :: 0 <= i < j < |s| ==> CompareNames(s[i], s[j]) <= 0
  }

  /** Insert a name before the first one it does not follow. */
  function InsertName(x: string, s: seq<string>): seq<string> {
    if s == [] || CompareNames(x, s[0]) <= 0 then [x] + s
    else [s[0]] + InsertName(x, s[1..])
  }

  /** The names in ascending order, as `qsort(entries, entry_count,
      sizeof(char *), compare_names)` leaves them. */
  function SortNames(s: seq<string>): seq<string> {
    if s == [] then [] else InsertName(s[0], SortNames(s[1..]))
  }

  /** A name that precedes every name of an ascending run can lead it. */
  lemma SortedCons(h: string, r: seq<string>)
    requires SortedByName(r)
    requires forall k :: 0 <= k < |r| ==> CompareNames(h, r[k]) <= 0
    ensures SortedByName([h] + r)
  {
    var s := [h] + r;
    forall i, j | 0 <= i < j < |s|
      ensures CompareNames(s[i], s[j]) <= 0
    {
      assert s[j] == r[j - 1];
      if i > 0 {
        assert s[i] == r[i - 1];
      }
    }
  }

  /** The rest of an ascending run is ascending, and its first name precedes
      all of it. */
  lemma SortedTail(s: seq<string>)
    requires SortedByName(s) && s != []
    ensures SortedByName(s[1..])
    ensures forall x :: x in s[1..] ==> CompareNames(s[0], x) <= 0
  {
    forall x | x in s[1..]
      ensures CompareNames(s[0], x) <= 0
    {
      var k :| 0 <= k < |s[1..]| && s[1..][k] == x;
      assert s[k + 1] == x;
    }
  }

  /** Insertion adds exactly the one name. */
  lemma {:induction false} InsertNamePermutes(x: string, s: seq<string>)
    ensures multiset(InsertName(x, s)) == multiset(s) + multiset{x}
  {
    if s != [] && CompareNames(x, s[0]) > 0 {
      InsertNamePermutes(x, s[1..]);
      assert s == [s[0]] + s[1..];
    }
  }

  /** Insertion into an ascending run keeps it ascending. */
  lemma {:induction false} InsertNameSorted(x: string, s: seq<string>)
    requires SortedByName(s)
    ensures SortedByName(InsertName(x, s))
  {
    if s == [] || CompareNames(x, s[0]) <= 0 {
      forall k | 0 <= k < |s|
        ensures CompareNames(x, s[k]) <= 0
      {
        if k > 0 {
          CompareNamesTrans(x, s[0], s[k]);
        }
      }
      SortedCons(x, s);
    } else {
      var r := InsertName(x, s[1..]);
      SortedTail(s);
      InsertNameSorted(x, s[1..]);
      InsertNamePermutes(x, s[1..]);
      CompareNamesFlip(x, s[0]);
      forall k | 0 <= k < |r|
        ensures CompareNames(s[0], r[k]) <= 0
      {
        assert r[k] in multiset(r);
      }
      SortedCons(s[0], r);
    }
  }

  /** Sorting yields an ascending permutation of the names. */
  lemma {:induction false} SortNamesSorted(s: seq<string>)
    ensures SortedByName(SortNames(s)) && multiset(SortNames(s)) == multiset(s)
  {
    if s != [] {
      SortNamesSorted(s[1..]);
      InsertNameSorted(s[0], SortNames(s[1..]));
      InsertNamePermutes(s[0], SortNames(s[1..]));
      assert s == [s[0]] + s[1..];
    }
  }

  /** There is only one ascending order of a collection of names, so every
      correct sort, whatever its algorithm, visits the names alike. */
  lemma {:induction false} SortedUnique(a: seq<string>, b: seq<string>)
    requires SortedByName(a) && SortedByName(b) && multiset(a) == multiset(b)
    ensures a == b
  {
    if a != [] {
      SortedHeadsAgree(a, b);
      assert a == [a[0]] + a[1..] && b == [b[0]] + b[1..];
      assert multiset(a) == multiset{a[0]} + multiset(a[1..]);
      assert multiset(b) == multiset{b[0]} + multiset(b[1..]);
      assert multiset(a[1..]) == multiset(a) - multiset{a[0]};
      assert multiset(b[1..]) == multiset(b) - multiset{b[0]};
      SortedTail(a);
      SortedTail(b);
      SortedUnique(a[1..], b[1..]);
    }
  }

  /** Two ascending runs of the same names start with the same name. */
  lemma SortedHeadsAgree(a: seq<string>, b: seq<string>)
    requires SortedByName(a) && SortedByName(b) && multiset(a) == multiset(b) && a != []
    ensures b != [] && a[0] == b[0]
  {
    assert a[0] in multiset(b);
    assert b != [] && b[0] in multiset(a);
    SortedHeadLeast(b, a[0]);
    SortedHeadLeast(a, b[0]);
    CompareNamesFlip(a[0], b[0]);
    CompareNamesZero(a[0], b[0]);
  }

  /** The first name of an ascending run precedes every name in it. */
  lemma SortedHeadLeast(s: seq<string>, x: string)
    requires SortedByName(s) && x in s
    ensures CompareNames(s[0], x) <= 0
  {
    var k :| 0 <= k < |s| && s[k] == x;
    if k == 0 {
      CompareNamesZero(x, x);
    }
  }

  // ---------------------------------------------------------------------
  // The directory walk.
  // ---------------------------------------------------------------------

  /** What `stat` reports for a path. */
  datatype FileKind = Regular | Directory | OtherKind | StatFailed

  /** What one directory entry feeds into the directory digest: the digest of
      a regular file or of a subdirectory, each named by its full path. */
  datatype DigestInput = FileDigest(path: string) | DirectoryDigest(path: string)

  /** `snprintf(fullpath, PATH_MAX, "%s/%s", dir_path, name)`: the joined
      path, cut to the PATH_MAX - 1 characters the buffer holds. */
  function JoinPath(dir: string, name: string): string {
    StoredPath(dir + "/" + name)
  }

  /** What the entry at `full` contributes: nothing when excluded, when
      `stat` fails or when it is neither a regular file nor a directory. */
  function InputFor(full: string, fnmatch: (string, string) -> bool, kindOf: string -> FileKind): seq<DigestInput> {
    if Excluded(full, EXCLUDE_PATTERNS, fnmatch) then []
    else
      match kindOf(full)
      case Regular => [FileDigest(full)]
      case Directory => [DirectoryDigest(full)]
      case _ => []
  }

  /** The digest inputs of `names`, visited in the given order. */
  function Contributions(dir: string, names: seq<string>, fnmatch: (string, string) -> bool, kindOf: string -> FileKind): seq<DigestInput> {
    if names == [] then []
    else Contributions(dir, names[..|names| - 1], fnmatch, kindOf) + InputFor(JoinPath(dir, names[|names| - 1]), fnmatch, kindOf)
  }

  /** The walk over two runs of names is the walk over the first, then the
      walk over the second: the inputs keep the order of the names. */
  lemma {:induction false} ContributionsAppend(dir: string, a: seq<string>, b: seq<string>, fnmatch: (string, string) -> bool, kindOf: string -> FileKind)
    ensures Contributions(dir, a + b, fnmatch, kindOf) == Contributions(dir, a, fnmatch, kindOf) + Contributions(dir, b, fnmatch, kindOf)
  {
    if b != [] {
      assert (a + b)[..|a + b| - 1] == a + b[..|b| - 1];
      ContributionsAppend(dir, a, b[..|b| - 1], fnmatch, kindOf);
    } else {
      assert a + b == a;
    }
  }

  /** Every input comes from a listed name whose full path no pattern
      excludes, and names the kind `stat` reported. */
  lemma {:induction false} ContributionsSound(dir: string, names: seq<string>, fnmatch: (string, string) -> bool, kindOf: string -> FileKind)
    ensures forall x :: x in Contributions(dir, names, fnmatch, kindOf) ==>
      && !Excluded(x.path, EXCLUDE_PATTERNS, fnmatch)
      && (exists n :: n in names && x.path == JoinPath(dir, n))
      && kindOf(x.path) == (if x.FileDigest? then Regular else Directory)
  {
    if names != [] {
      var init := names[..|names| - 1];
      ContributionsSound(dir, init, fnmatch, kindOf);
      assert forall n :: n in init ==> n in names;
      assert names[|names| - 1] in names;
    }
  }

  /** Every listed regular file or directory that no pattern excludes
      contributes. */
  lemma {:induction false} ContributionsComplete(dir: string, names: seq<string>, n: string, fnmatch: (string, string) -> bool, kindOf: string -> FileKind)
    requires n in names
    requires !Excluded(JoinPath(dir, n), EXCLUDE_PATTERNS, fnmatch)
    ensures kindOf(JoinPath(dir, n)) == Regular ==> FileDigest(JoinPath(dir, n)) in Contributions(dir, names, fnmatch, kindOf)
    ensures kindOf(JoinPath(dir, n)) == Directory ==> DirectoryDigest(JoinPath(dir, n)) in Contributions(dir, names, fnmatch, kindOf)
  {
    var init := names[..|names| - 1];
    if n != names[|names| - 1] {
      assert names == init + [names[|names| - 1]];
      ContributionsComplete(dir, init, n, fnmatch, kindOf);
    }
  }

  /** Whatever correct sort produced the order, the directory digest sees
      the same inputs as for `SortNames`. */
  lemma SortOrderFixesInputs(dir: string, entries: seq<string>, sorted: seq<string>, fnmatch: (string, string) -> bool, kindOf: string -> FileKind)
    requires SortedByName(sorted) && multiset(sorted) == multiset(entries)
    ensures Contributions(dir, sorted, fnmatch, kindOf) == Contributions(dir, SortNames(entries), fnmatch, kindOf)
  {
    SortNamesSorted(entries);
    SortedUnique(sorted, SortNames(entries));
  }

  /** The names `readdir` lists, in listing order, without "." and "..". */
  function RealNames(listing: seq<string>): seq<string> {
    if listing == [] then []
    else
      var rest, name := RealNames(listing[..|listing| - 1]), listing[|listing| - 1];
      if name == "." || name == ".." then rest else rest + [name]
  }

  /** `get_all_entries`: `None` when `opendir` fails (`listing` is `None`),
      and also when the directory lists nothing but "." and "..", because
      the array it returns is then still NULL. */
  function AllEntries(listing: Option<seq<string>>): Option<seq<string>> {
    if listing.None? || RealNames(listing.value) == [] then None
    else Some(RealNames(listing.value))
  }

  /** The kept names are the listed ones, each as often as listed, except
      "." and "..", which are dropped. */
  lemma {:induction false} RealNamesExactly(listing: seq<string>)
    ensures forall n :: multiset(RealNames(listing))[n] == if n == "." || n == ".." then 0 else multiset(listing)[n]
  {
    if listing != [] {
      var init := listing[..|listing| - 1];
      RealNamesExactly(init);
      assert listing == init + [listing[|listing| - 1]];
    }
  }

  /** `get_all_entries` returns NULL exactly when the directory cannot be
      opened or holds no entry besides "." and "..". */
  lemma AllEntriesNone(listing: Option<seq<string>>)
    ensures AllEntries(listing).None? <==> listing.None? || forall n :: n in listing.value ==> n == "." || n == ".."
    ensures AllEntries(listing).Some? ==> forall n :: n in AllEntries(listing).value <==> n in listing.value && n != "." && n != ".."
  {
    if listing.Some? {
      RealNamesExactly(listing.value);
      if RealNames(listing.value) == [] {
        forall n | n in listing.value
          ensures n == "." || n == ".."
        {
          assert multiset(RealNames(listing.value))[n] == 0;
        }
      } else {
        var kept := RealNames(listing.value);
        assert multiset(kept)[kept[0]] > 0;
        forall n
          ensures n in kept <==> n in listing.value && n != "." && n != ".."
        {
          assert n in kept <==> n in multiset(kept);
          assert n in listing.value <==> n in multiset(listing.value);
        }
        assert kept[0] in listing.value && kept[0] != "." && kept[0] != "..";
      }
    }
  }

  /** The `readdir` loop of `get_all_entries`, growing the array one name
      at a time. */
  method GetAllEntries(listing: Option<seq<string>>) returns (entries: Option<seq<string>>)
    ensures entries == AllEntries(listing)
  {
    if listing.None? {
      return None;
    }
    var l := listing.value;
    var names: seq<string> := [];
    for i := 0 to |l|
      invariant names == RealNames(l[..i])
    {
      assert l[..i + 1][..i] == l[..i];
      if l[i] == "." || l[i] == ".." {
        continue;
      }
      names := names + [l[i]];
    }
    assert l[..|l|] == l;
    if names == [] {
      return None;
    }
    return Some(names);
  }

  /** The loop of `hash_directory_sha256`: `None` when `get_all_entries`
      returns NULL (the directory cannot be opened, or holds nothing but "."
      and ".."); otherwise the names are sorted, and each full path is
      skipped when excluded or when `stat` fails, and otherwise feeds the
      digest of a regular file or of a subdirectory. */
  method DirectoryInputs(dir: string, listing: Option<seq<string>>, fnmatch: (string, string) -> bool, kindOf: string -> FileKind)
    returns (inputs: Option<seq<DigestInput>>)
    ensures inputs.None? <==> AllEntries(listing).None?
    ensures AllEntries(listing).Some? ==> inputs == Some(Contributions(dir, SortNames(AllEntries(listing).value), fnmatch, kindOf))
  {
    var entries := GetAllEntries(listing);
    if entries.None? {
      return None;
    }
    var names := SortNames(entries.value);
    var fed: seq<DigestInput> := [];
    for i := 0 to |names|
      invariant fed == Contributions(dir, names[..i], fnmatch, kindOf)
    {
      assert names[..i + 1][..i] == names[..i];
      var full := JoinPath(dir, names[i]);
      var excluded := IsExcluded(full, EXCLUDE_PATTERNS, fnmatch);
      if excluded {
        continue;
      }
      var kind := kindOf(full);
      if kind == StatFailed {
        continue;
      }
      if kind == Regular {
        fed := fed + [FileDigest(full)];
      } else if kind == Directory {
        fed := fed + [DirectoryDigest(full)];
      }
    }
    assert names[..|names|] == names;
    return Some(fed);
  }

  // ---------------------------------------------------------------------
  // Dispatch.
  // ---------------------------------------------------------------------

  /** What `do_hash` logs for an entry: the hex digest of a file or
      directory, a failure to hash one, or the hex digest of every line. */
  datatype Report =
    | Hashed(path: string, hex: string)
    | HashFailed(path: string)
    | LineHashes(path: string, hexes: seq<string>)

  /** The digests the OpenSSL helpers would compute: `None` where
      `sha256_dir` or `sha256_file` returns -1. */
  datatype Digests = Digests(
    directory: string -> Option<seq<byte>>,
    file: string -> Option<seq<byte>>,
    lines: string -> seq<seq<byte>>)

  /** `do_hash`: the level picks `sha256_dir`, `sha256_file` or
      `hash_file_lines`, and the digest is reported in hex. */
  function DoHash(e: ConfigEntry, digests: Digests): Report {
    match e.hashLevel
    case HashDir =>
      (match digests.directory(e.path)
       case Some(d) => Hashed(e.path, Hex(d))
       case None => HashFailed(e.path))
    case HashFile =>
      (match digests.file(e.path)
       case Some(d) => Hashed(e.path, Hex(d))
       case None => HashFailed(e.path))
    case HashLine =>
      LineHashes(e.path, seq(|digests.lines(e.path)|, i requires 0 <= i < |digests.lines(e.path)| => Hex(digests.lines(e.path)[i])))
  }

  /** Every digest SHA-256 produces is 32 bytes. */
  ghost predicate FullLength(digests: Digests) {
    && (forall p :: digests.directory(p).Some? ==> |digests.directory(p).value| == SHA256_DIGEST_LENGTH)
    && (forall p :: digests.file(p).Some? ==> |digests.file(p).value| == SHA256_DIGEST_LENGTH)
    && (forall p, i :: 0 <= i < |digests.lines(p)| ==> |digests.lines(p)[i]| == SHA256_DIGEST_LENGTH)
  }

  /** The report names the entry's path; a directory or file entry is
      hashed exactly when its hasher succeeds, into HASH_HEX_LEN digits that
      decode to the digest; a line entry reports one such hex string per
      line, in order. */
  lemma DoHashReports(e: ConfigEntry, digests: Digests)
    requires FullLength(digests)
    ensures DoHash(e, digests).path == e.path
    ensures e.hashLevel == HashLine <==> DoHash(e, digests).LineHashes?
    ensures DoHash(e, digests).Hashed? ==> |DoHash(e, digests).hex| == HASH_HEX_LEN
    ensures e.hashLevel == HashDir ==> (DoHash(e, digests).Hashed? <==> digests.directory(e.path).Some?)
    ensures e.hashLevel == HashDir && digests.directory(e.path).Some? ==> Unhex(DoHash(e, digests).hex) == digests.directory(e.path)
    ensures e.hashLevel == HashFile ==> (DoHash(e, digests).Hashed? <==> digests.file(e.path).Some?)
    ensures e.hashLevel == HashFile && digests.file(e.path).Some? ==> Unhex(DoHash(e, digests).hex) == digests.file(e.path)
    ensures e.hashLevel == HashLine ==> |DoHash(e, digests).hexes| == |digests.lines(e.path)|
    ensures e.hashLevel == HashLine ==> forall i :: 0 <= i < |digests.lines(e.path)| ==> Unhex(DoHash(e, digests).hexes[i]) == Some(digests.lines(e.path)[i])
  {
    match e.hashLevel
    case HashDir =>
      if digests.directory(e.path).Some? {
        UnhexHex(digests.directory(e.path).value);
      }
    case HashFile =>
      if digests.file(e.path).Some? {
        UnhexHex(digests.file(e.path).value);
      }
    case HashLine =>
      forall i | 0 <= i < |digests.lines(e.path)|
        ensures Unhex(DoHash(e, digests).hexes[i]) == Some(digests.lines(e.path)[i])
      {
        UnhexHex(digests.lines(e.path)[i]);
      }
  }

  /** `integrity_check`: parse the configuration, then `do_hash` each of the
      `count` entries once, in order. */
  method IntegrityCheck(file: Option<seq<string>>, digests: Digests) returns (reports: seq<Report>)
    ensures |reports| == |DEFAULTS| + |UserEntries(file)|
    ensures forall i :: 0 <= i < |reports| ==> reports[i] == DoHash((DEFAULTS + UserEntries(file))[i], digests)
  {
    var entries, count := ParseConfig(file);
    reports := [];
    for i := 0 to count
      invariant |reports| == i
      invariant forall k :: 0 <= k < i ==> reports[k] == DoHash(entries[k], digests)
    {
      reports := reports + [DoHash(entries[i], digests)];
    }
    assert entries[..count] == DEFAULTS + UserEntries(file);
    forall i | 0 <= i < count
      ensures entries[i] == (DEFAULTS + UserEntries(file))[i]
    {
      assert entries[i] == entries[..count][i];
    }
  }
}
