/** Path arithmetic: the textual form of a request identifier, the working folder
    named after it, `Path::join`, and the table of proving keys built at startup. */
module Paths {
  import opened Base

  // ----- hyphenated hexadecimal form (section 4 of RFC 9562) -----

  function HexDigit(n: int): (c: char)
    requires 0 <= n < 16
  {
    if n < 10 then '0' + n as char else 'a' + (n - 10) as char
  }

  function DigitValue(c: char): (n: int)
    ensures 0 <= n < 16
  {
    if '0' <= c <= '9' then c as int - '0' as int
    else if 'a' <= c <= 'f' then c as int - 'a' as int + 10
    else 0
  }

  lemma DigitRoundTrip(n: int)
    requires 0 <= n < 16
    ensures DigitValue(HexDigit(n)) == n
  {
  }

  function Hex(bs: Bytes): (s: string)
    ensures |s| == 2 * |bs|
  {
    if bs == [] then ""
    else [HexDigit(bs[0] as int / 16), HexDigit(bs[0] as int % 16)] + Hex(bs[1..])
  }

  function Unhex(s: string): (bs: Bytes)
    ensures |bs| == |s| / 2
  {
    if |s| < 2 then []
    else [PairValue(s[0], s[1])] + Unhex(s[2..])
  }

  function PairValue(c: char, d: char): (b: byte) {
    (16 * DigitValue(c) + DigitValue(d)) as byte
  }

  lemma PairRoundTrip(b: byte)
    ensures PairValue(HexDigit(b as int / 16), HexDigit(b as int % 16)) == b
  {
    DigitRoundTrip(b as int / 16);
    DigitRoundTrip(b as int % 16);
  }

  lemma {:induction false} HexRoundTrip(bs: Bytes)
    ensures Unhex(Hex(bs)) == bs
  {
    if bs != [] {
      PairRoundTrip(bs[0]);
      assert Hex(bs)[2..] == Hex(bs[1..]);
      HexRoundTrip(bs[1..]);
    }
  }

  /** `uuid.to_string()`: groups of 8, 4, 4, 4 and 12 digits. */
  function Hyphenated(u: Uuid): (s: string)
    ensures |s| == 36
  {
    Hex(u.bytes[..4]) + "-" + Hex(u.bytes[4..6]) + "-" + Hex(u.bytes[6..8]) + "-" +
    Hex(u.bytes[8..10]) + "-" + Hex(u.bytes[10..])
  }

  function ParseHyphenated(s: string): (u: Uuid)
    requires |s| == 36
  {
    Uuid(Unhex(s[..8]) + Unhex(s[9..13]) + Unhex(s[14..18]) + Unhex(s[19..23]) + Unhex(s[24..]))
  }

  lemma HyphenatedRoundTrip(u: Uuid)
    ensures ParseHyphenated(Hyphenated(u)) == u
  {
    var b, s := u.bytes, Hyphenated(u);
    assert s[..8] == Hex(b[..4]);
    assert s[9..13] == Hex(b[4..6]);
    assert s[14..18] == Hex(b[6..8]);
    assert s[19..23] == Hex(b[8..10]);
    assert s[24..] == Hex(b[10..]);
    HexRoundTrip(b[..4]);
    HexRoundTrip(b[4..6]);
    HexRoundTrip(b[6..8]);
    HexRoundTrip(b[8..10]);
    HexRoundTrip(b[10..]);
    assert b == b[..4] + b[4..6] + b[6..8] + b[8..10] + b[10..];
  }

  /** The folder in which every stage of one request works. */
  function TmpFolder(u: Uuid): (p: string) {
    "./tmp_" + Hyphenated(u)
  }

  lemma NamesInjective(u: Uuid, v: Uuid)
    ensures Hyphenated(u) == Hyphenated(v) ==> u == v
    ensures TmpFolder(u) == TmpFolder(v) ==> u == v
  {
    HyphenatedRoundTrip(u);
    HyphenatedRoundTrip(v);
    assert TmpFolder(u)[6..] == Hyphenated(u);
    assert TmpFolder(v)[6..] == Hyphenated(v);
  }

  // ----- Path::join -----

  predicate Absolute(p: string) {
    p != "" && p[0] == '/'
  }

  function Join(base: string, p: string): (r: string) {
    if Absolute(p) || base == "" then p
    else if base[|base| - 1] == '/' then base + p
    else base + "/" + p
  }

  lemma JoinKeepsAbsolute(base: string, p: string)
    requires base != ""
    ensures Absolute(Join(base, p)) <==> Absolute(base) || Absolute(p)
  {
  }

  /** The witness task joins the folder of proving keys onto a path that startup
      already joined once. The result is the path that was checked exactly when the
      folder is absolute (or empty); the relative default `./zkeys` is not. */
  lemma DoubleJoin(folder: string, file: string)
    requires !Absolute(file)
    ensures Join(folder, Join(folder, file)) == Join(folder, file)
            <==> Absolute(folder) || folder == ""
  {
    if folder != "" {
      JoinKeepsAbsolute(folder, file);
      if !Absolute(folder) {
        assert |Join(folder, Join(folder, file))| > |Join(folder, file)|;
      }
    }
  }

  lemma RelativeKeyFolderDoubles()
    ensures Join("./zkeys", "a.zkey") == "./zkeys/a.zkey"
    ensures Join("./zkeys", Join("./zkeys", "a.zkey")) == "./zkeys/./zkeys/a.zkey"
  {
  }

  /** A file in the folder of a request. */
  lemma InFolder(u: Uuid, file: string)
    requires !Absolute(file)
    ensures Join(TmpFolder(u), file) == TmpFolder(u) + ("/" + file)
  {
    var b := u.bytes[10..];
    HexLast(b);
    assert TmpFolder(u)[|TmpFolder(u)| - 1] == Hex(b)[|Hex(b)| - 1];
  }

  lemma {:induction false} HexLast(bs: Bytes)
    requires bs != []
    ensures Hex(bs)[|Hex(bs)| - 1] == HexDigit(bs[|bs| - 1] as int % 16) != '/'
  {
    if |bs| > 1 {
      HexLast(bs[1..]);
      assert Hex(bs)[2..] == Hex(bs[1..]);
    }
  }

  /** Two paths in the same folder are the same only if their names are. */
  lemma JoinInjective(base: string, p: string, q: string)
    requires !Absolute(p) && !Absolute(q) && Join(base, p) == Join(base, q)
    ensures p == q
  {
    hide Join;
    JoinPrefix(base, p);
    JoinPrefix(base, q);
  }

  /** Joining replaces the base by an absolute path, and otherwise leaves exactly one
      separator between the two: the one the base ends in, or a new one. */
  lemma JoinText(base: string, p: string)
    ensures p != "" && p[0] == '/' ==> Join(base, p) == p
    ensures Join("", p) == p
    ensures (p == "" || p[0] != '/') && base != "" ==>
              Join(base, p) == base + "/" + p || (base[|base| - 1] == '/' && Join(base, p) == base + p)
    ensures (p == "" || p[0] != '/') && base != "" && base[|base| - 1] == '/' ==> Join(base, p) == base + p
  {
  }

  // ----- what the names look like -----

  /** The textual form, group by group, and the folder named after it. */
  lemma Groups(u: Uuid)
    ensures var b := u.bytes;
            && Hyphenated(u)[8] == Hyphenated(u)[13] == Hyphenated(u)[18] == Hyphenated(u)[23] == '-'
            && Hyphenated(u)[..8] == Hex(b[..4]) && Hyphenated(u)[9..13] == Hex(b[4..6])
            && Hyphenated(u)[14..18] == Hex(b[6..8]) && Hyphenated(u)[19..23] == Hex(b[8..10])
            && Hyphenated(u)[24..] == Hex(b[10..])
    ensures |TmpFolder(u)| == 42 && TmpFolder(u)[..6] == "./tmp_" && TmpFolder(u)[6..] == Hyphenated(u)
  {
    hide Hex;
  }

  /** The digits, at one identifier: lower case, high half first. */
  lemma TextForm()
    ensures Hex([0x01, 0x23, 0x45, 0x67]) == "0123" + "4567"
    ensures Hex([0x89, 0xab]) == "89ab" && Hex([0xcd, 0xef]) == "cdef" && Hex([0xfe, 0xdc]) == "fedc"
    ensures Hex([0xba, 0x98, 0x76, 0x54, 0x32, 0x10]) == "ba98" + "7654" + "3210"
  {
    hide Hex, HexDigit;
    GroupText();
    assert [0x01, 0x23, 0x45, 0x67] == [0x01, 0x23] + [0x45, 0x67];
    assert [0xba, 0x98, 0x76, 0x54, 0x32, 0x10] == [0xba, 0x98] + [0x76, 0x54] + [0x32, 0x10];
    HexConcat([0x01, 0x23], [0x45, 0x67]);
    HexConcat([0xba, 0x98], [0x76, 0x54]);
    HexConcat([0xba, 0x98] + [0x76, 0x54], [0x32, 0x10]);
  }

  lemma GroupText()
    ensures Hex([0x01, 0x23]) == "0123" && Hex([0x45, 0x67]) == "4567"
    ensures Hex([0x89, 0xab]) == "89ab" && Hex([0xcd, 0xef]) == "cdef" && Hex([0xfe, 0xdc]) == "fedc"
    ensures Hex([0xba, 0x98]) == "ba98" && Hex([0x76, 0x54]) == "7654" && Hex([0x32, 0x10]) == "3210"
  {
    hide Hex;
    TwoBytes(0x01, 0x23);
    TwoBytes(0x45, 0x67);
    TwoBytes(0x89, 0xab);
    TwoBytes(0xcd, 0xef);
    TwoBytes(0xfe, 0xdc);
    TwoBytes(0xba, 0x98);
    TwoBytes(0x76, 0x54);
    TwoBytes(0x32, 0x10);
  }

  lemma TwoBytes(a: byte, b: byte)
    ensures Hex([a, b]) ==
            [HexDigit(a as int / 16), HexDigit(a as int % 16), HexDigit(b as int / 16), HexDigit(b as int % 16)]
  {
    assert [a, b][1..] == [b] && [b][1..] == [];
    assert Hex([b]) == [HexDigit(b as int / 16), HexDigit(b as int % 16)] + [];
  }

  lemma {:induction false} HexConcat(a: Bytes, b: Bytes)
    ensures Hex(a + b) == Hex(a) + Hex(b)
  {
    if a == [] {
      assert a + b == b;
    } else {
      assert (a + b)[1..] == a[1..] + b;
      HexConcat(a[1..], b);
    }
  }

  // ----- the startup table of circuits -----

  const CPP := "_cpp"

  predicate EndsWithCpp(dir: string) {
    |dir| >= 4 && dir[|dir| - 4..] == CPP
  }

  /** The last four characters are dropped without looking at them. */
  function CircuitName(dir: string): (name: string)
    requires |dir| >= 4
  {
    dir[..|dir| - 4]
  }

  /** The folder the witness stage goes back to. */
  function CircuitDir(name: string): (dir: string) {
    name + CPP
  }

  lemma StripThenAppend(dir: string)
    requires |dir| >= 4
    ensures CircuitDir(CircuitName(dir)) == dir <==> EndsWithCpp(dir)
  {
    var name := CircuitName(dir);
    assert dir == name + dir[|dir| - 4..];
    if CircuitDir(name) == dir {
      assert CircuitDir(name)[|name|..] == CPP;
    }
  }

  /** The executable that computes the witness of a circuit. */
  function CircuitExe(circuitFolder: string, name: string): string {
    Join(Join(circuitFolder, CircuitDir(name)), name)
  }

  function ZkeyFile(name: string): string {
    name + ".zkey"
  }

  predicate Names(dir: string, name: string) {
    |dir| >= 4 && CircuitName(dir) == name
  }

  /** What startup promises of the table it built from the first `k` folders: exactly
      the circuits they name, each with the path of a proving key that exists. */
  ghost predicate ZkeyTable(dirs: seq<string>, k: nat, zkeyFolder: string, files: set<string>, m: map<string, string>)
    requires k <= |dirs|
  {
    && (forall name :: name in m ==> KeyPath(zkeyFolder, files, name, m[name]))
    && (forall name :: name in m ==> exists i :: 0 <= i < k && Names(dirs[i], name))
    && (forall i :: 0 <= i < k ==> HasKey(dirs[i], zkeyFolder, files) && CircuitName(dirs[i]) in m)
  }

  predicate KeyPath(zkeyFolder: string, files: set<string>, name: string, path: string) {
    path == Join(zkeyFolder, ZkeyFile(name)) && path in files
  }

  predicate HasKey(dir: string, zkeyFolder: string, files: set<string>) {
    |dir| >= 4 && Join(zkeyFolder, ZkeyFile(CircuitName(dir))) in files
  }

  lemma ZkeyTableGrows(dirs: seq<string>, k: nat, zkeyFolder: string, files: set<string>, m: map<string, string>, path: string)
    requires k < |dirs| && ZkeyTable(dirs, k, zkeyFolder, files, m)
    requires HasKey(dirs[k], zkeyFolder, files)
    requires KeyPath(zkeyFolder, files, CircuitName(dirs[k]), path)
    ensures ZkeyTable(dirs, k + 1, zkeyFolder, files, m[CircuitName(dirs[k]) := path])
  {
    hide Join, ZkeyFile, CircuitName;
    var name := CircuitName(dirs[k]);
    var m' := m[name := path];
    forall n | n in m'
      ensures exists i :: 0 <= i < k + 1 && Names(dirs[i], n)
    {
      if n == name {
        assert Names(dirs[k], n);
      } else {
        var i :| 0 <= i < k && Names(dirs[i], n);
      }
    }
  }

  /** The entry of one listed folder, spelled out: `<name>_cpp`, or `<name>` with any other
      four last characters, gives `name` the path of `<name>.zkey`, which exists. */
  ghost predicate EntrySpelledOut(dir: string, zkeyFolder: string, files: set<string>, m: map<string, string>) {
    && |dir| >= 4
    && var name := dir[..|dir| - 4];
    name in m && m[name] == Join(zkeyFolder, name + ".zkey") && m[name] in files
  }

  ghost predicate FolderOf(dir: string, name: string) {
    |dir| >= 4 && dir[..|dir| - 4] == name
  }

  /** The table in full: these entries, and no others. */
  ghost predicate SpelledOut(dirs: seq<string>, zkeyFolder: string, files: set<string>, m: map<string, string>) {
    && (forall i :: 0 <= i < |dirs| ==> EntrySpelledOut(dirs[i], zkeyFolder, files, m))
    && (forall name :: name in m ==> exists i :: 0 <= i < |dirs| && FolderOf(dirs[i], name))
  }

  ghost predicate HasFile(dir: string, zkeyFolder: string, files: set<string>) {
    |dir| >= 4 && Join(zkeyFolder, dir[..|dir| - 4] + ".zkey") in files
  }

  lemma TableSpelledOut(dirs: seq<string>, zkeyFolder: string, files: set<string>, m: map<string, string>)
    requires ZkeyTable(dirs, |dirs|, zkeyFolder, files, m)
    ensures SpelledOut(dirs, zkeyFolder, files, m)
  {
    hide ZkeyTable, EntrySpelledOut, FolderOf;
    forall i | 0 <= i < |dirs|
      ensures EntrySpelledOut(dirs[i], zkeyFolder, files, m)
    {
      TableEntry(dirs, zkeyFolder, files, m, i);
    }
    forall name | name in m
      ensures exists i :: 0 <= i < |dirs| && FolderOf(dirs[i], name)
    {
      var i := TableFolder(dirs, zkeyFolder, files, m, name);
    }
  }

  lemma TableEntry(dirs: seq<string>, zkeyFolder: string, files: set<string>, m: map<string, string>, i: nat)
    requires ZkeyTable(dirs, |dirs|, zkeyFolder, files, m) && i < |dirs|
    ensures EntrySpelledOut(dirs[i], zkeyFolder, files, m)
  {
    hide Join, EntrySpelledOut, Names, KeyPath;
    FolderEntry(dirs[i], zkeyFolder, files, m);
  }

  lemma TableFolder(dirs: seq<string>, zkeyFolder: string, files: set<string>, m: map<string, string>, name: string) returns (i: nat)
    requires ZkeyTable(dirs, |dirs|, zkeyFolder, files, m) && name in m
    ensures i < |dirs| && FolderOf(dirs[i], name)
  {
    hide FolderOf, Names, HasKey, KeyPath;
    i :| 0 <= i < |dirs| && Names(dirs[i], name);
    NamesFolder(dirs[i], name);
  }

  lemma FolderEntry(dir: string, zkeyFolder: string, files: set<string>, m: map<string, string>)
    requires HasKey(dir, zkeyFolder, files) && CircuitName(dir) in m
    requires KeyPath(zkeyFolder, files, CircuitName(dir), m[CircuitName(dir)])
    ensures EntrySpelledOut(dir, zkeyFolder, files, m)
  {
    hide Join;
  }

  lemma NamesFolder(dir: string, name: string)
    ensures Names(dir, name) <==> FolderOf(dir, name)
  {
  }

  lemma FilesAreKeys(dirs: seq<string>, zkeyFolder: string, files: set<string>)
    ensures (forall i :: 0 <= i < |dirs| ==> HasFile(dirs[i], zkeyFolder, files)) <==>
            (forall i :: 0 <= i < |dirs| ==> HasKey(dirs[i], zkeyFolder, files))
  {
    hide HasFile, HasKey;
    forall i | 0 <= i < |dirs|
      ensures HasFile(dirs[i], zkeyFolder, files) <==> HasKey(dirs[i], zkeyFolder, files)
    {
      FileIsKey(dirs[i], zkeyFolder, files);
    }
  }

  lemma FileIsKey(dir: string, zkeyFolder: string, files: set<string>)
    ensures HasFile(dir, zkeyFolder, files) <==> HasKey(dir, zkeyFolder, files)
  {
    hide Join;
  }

  /** The same without names of its own. */
  lemma InPlainWords(dirs: seq<string>, zkeyFolder: string, files: set<string>, m: map<string, string>)
    ensures SpelledOut(dirs, zkeyFolder, files, m) ==>
              forall i :: 0 <= i < |dirs| && |dirs[i]| >= 4 ==>
                && dirs[i][..|dirs[i]| - 4] in m
                && m[dirs[i][..|dirs[i]| - 4]] == Join(zkeyFolder, dirs[i][..|dirs[i]| - 4] + ".zkey")
    ensures (forall i :: 0 <= i < |dirs| ==> HasFile(dirs[i], zkeyFolder, files)) <==>
            (forall i :: 0 <= i < |dirs| ==>
              |dirs[i]| >= 4 && Join(zkeyFolder, dirs[i][..|dirs[i]| - 4] + ".zkey") in files)
  {
    hide Join, FolderOf;
    if SpelledOut(dirs, zkeyFolder, files, m) {
      forall i | 0 <= i < |dirs|
        ensures EntrySpelledOut(dirs[i], zkeyFolder, files, m)
      {
      }
    }
  }

  /** Circuits do not share keys. */
  lemma KeysDistinct(dirs: seq<string>, zkeyFolder: string, files: set<string>, m: map<string, string>, a: string, b: string)
    requires SpelledOut(dirs, zkeyFolder, files, m)
    requires forall i :: 0 <= i < |dirs| && |dirs[i]| >= 4 ==> dirs[i][0] != '/'
    requires a in m && b in m && m[a] == m[b]
    ensures a == b
  {
    hide Join;
    EntryOf(dirs, zkeyFolder, files, m, a);
    EntryOf(dirs, zkeyFolder, files, m, b);
    JoinInjective(zkeyFolder, a + ".zkey", b + ".zkey");
    assert (a + ".zkey")[..|a|] == a && (b + ".zkey")[..|b|] == b;
  }

  lemma EntryOf(dirs: seq<string>, zkeyFolder: string, files: set<string>, m: map<string, string>, name: string)
    requires SpelledOut(dirs, zkeyFolder, files, m) && name in m
    requires forall i :: 0 <= i < |dirs| && |dirs[i]| >= 4 ==> dirs[i][0] != '/'
    ensures m[name] == Join(zkeyFolder, name + ".zkey") && !Absolute(name + ".zkey")
  {
    hide Join;
    var i :| 0 <= i < |dirs| && FolderOf(dirs[i], name);
    assert EntrySpelledOut(dirs[i], zkeyFolder, files, m);
    assert (name + ".zkey")[0] == if |name| > 0 then dirs[i][0] else '.';
  }

  /** The program of a circuit, spelled out. */
  lemma ProgramText(circuitFolder: string, name: string)
    ensures CircuitExe(circuitFolder, name) == Join(Join(circuitFolder, name + "_cpp"), name)
    ensures forall dir :: dir == name + "_cpp" ==> CircuitExe(circuitFolder, name) == Join(Join(circuitFolder, dir), name)
    ensures EndsWithCpp(name + "_cpp")
  {
    hide Join;
    assert (name + "_cpp")[|name|..] == "_cpp";
  }

  /** The loop over the circuit folder. `None` is a panic: a folder name shorter than
      the suffix, or a circuit without a proving key. */
  method BuildZkeyTable(dirs: seq<string>, zkeyFolder: string, files: set<string>) returns (r: Option<map<string, string>>)
    ensures r.Some? <==> forall i :: 0 <= i < |dirs| ==> HasKey(dirs[i], zkeyFolder, files)
    ensures r.Some? ==> ZkeyTable(dirs, |dirs|, zkeyFolder, files, r.value)
    ensures r.Some? <==> forall i :: 0 <= i < |dirs| ==>
              |dirs[i]| >= 4 && Join(zkeyFolder, dirs[i][..|dirs[i]| - 4] + ".zkey") in files
    ensures r.Some? ==> forall i :: 0 <= i < |dirs| && |dirs[i]| >= 4 ==>
              && dirs[i][..|dirs[i]| - 4] in r.value
              && r.value[dirs[i][..|dirs[i]| - 4]] == Join(zkeyFolder, dirs[i][..|dirs[i]| - 4] + ".zkey")
    ensures r.Some? ==> SpelledOut(dirs, zkeyFolder, files, r.value)
  {
    hide Join, SpelledOut, HasFile;
    FilesAreKeys(dirs, zkeyFolder, files);
    InPlainWords(dirs, zkeyFolder, files, map[]);
    var m: map<string, string> := map[];
    for k := 0 to |dirs|
      invariant ZkeyTable(dirs, k, zkeyFolder, files, m)
    {
      if |dirs[k]| < 4 {
        assert !HasKey(dirs[k], zkeyFolder, files);
        return None;
      }
      var name := CircuitName(dirs[k]);
      var zkey := Join(zkeyFolder, ZkeyFile(name));
      if zkey !in files {
        assert !HasKey(dirs[k], zkeyFolder, files);
        return None;
      }
      ZkeyTableGrows(dirs, k, zkeyFolder, files, m, zkey);
      m := m[name := zkey];
    }
    TableSpelledOut(dirs, zkeyFolder, files, m);
    InPlainWords(dirs, zkeyFolder, files, m);
    r := Some(m);
  }

  /** The program of the circuit `name` is that of a listed folder: there is a folder of
      that circuit, its program is found exactly if the folder is named with the suffix,
      and if all of them are, the folder gone back to is one of them. */
  ghost predicate RunsListed(circuitFolder: string, dirs: seq<string>, name: string) {
    && (exists i :: 0 <= i < |dirs| && Names(dirs[i], name))
    && (forall i :: 0 <= i < |dirs| && Names(dirs[i], name) ==>
          (CircuitExe(circuitFolder, name) == Join(Join(circuitFolder, dirs[i]), name) <==> EndsWithCpp(dirs[i])))
    && ((forall i :: 0 <= i < |dirs| && Names(dirs[i], name) ==> EndsWithCpp(dirs[i])) ==> CircuitDir(name) in dirs)
  }

  /** Every circuit of the startup table has its program in a listed folder, as far as the
      folders are named with the suffix. */
  lemma ListedCircuit(circuitFolder: string, dirs: seq<string>, zkeyFolder: string, files: set<string>, m: map<string, string>)
    requires ZkeyTable(dirs, |dirs|, zkeyFolder, files, m)
    requires forall i :: 0 <= i < |dirs| && |dirs[i]| >= 4 ==> dirs[i][0] != '/'
    ensures forall name :: name in m ==> RunsListed(circuitFolder, dirs, name)
  {
    hide Join, CircuitExe, CircuitName, EndsWithCpp, CircuitDir, KeyPath, HasKey;
    forall name | name in m
      ensures RunsListed(circuitFolder, dirs, name)
    {
      FolderListed(dirs, name);
      forall i | 0 <= i < |dirs| && Names(dirs[i], name)
        ensures CircuitExe(circuitFolder, name) == Join(Join(circuitFolder, dirs[i]), name) <==> EndsWithCpp(dirs[i])
      {
        ExeInFolder(circuitFolder, dirs[i], name);
      }
    }
  }

  /** The folder gone back to is listed if and only if a folder of the circuit is named
      with the suffix. */
  lemma FolderListed(dirs: seq<string>, name: string)
    ensures CircuitDir(name) in dirs <==> exists i :: 0 <= i < |dirs| && Names(dirs[i], name) && EndsWithCpp(dirs[i])
  {
    if CircuitDir(name) in dirs {
      var i :| 0 <= i < |dirs| && dirs[i] == CircuitDir(name);
      assert CircuitName(dirs[i]) == name;
      assert Names(dirs[i], name) && EndsWithCpp(dirs[i]);
    }
    forall i | 0 <= i < |dirs| && Names(dirs[i], name) && EndsWithCpp(dirs[i])
      ensures CircuitDir(name) == dirs[i]
    {
      StripThenAppend(dirs[i]);
    }
  }

  /** The program run for a circuit is the one inside a folder of that circuit if and only
      if the folder is named with the suffix. */
  lemma ExeInFolder(circuitFolder: string, dir: string, name: string)
    requires Names(dir, name) && dir[0] != '/'
    ensures CircuitExe(circuitFolder, name) == Join(Join(circuitFolder, dir), name) <==> EndsWithCpp(dir)
  {
    hide Join;
    StripThenAppend(dir);
    assert name != "" ==> name[0] == dir[0];
    if CircuitDir(name) != dir {
      JoinPrefix(circuitFolder, dir);
      JoinPrefix(circuitFolder, CircuitDir(name));
      JoinDiffers(Join(circuitFolder, CircuitDir(name)), Join(circuitFolder, dir), name);
    }
  }

  /** Joining a relative path puts the same characters in front of it, whatever it is. */
  lemma JoinPrefix(base: string, p: string)
    requires !Absolute(p)
    ensures var n := |Join(base, "x")| - 1;
            n >= 0 && |Join(base, p)| == n + |p| && Join(base, p)[n..] == p
  {
  }

  lemma JoinDiffers(a: string, b: string, p: string)
    requires a != b && |a| == |b| > 0 && !Absolute(p)
    ensures Join(a, p) != Join(b, p)
  {
    assert Join(a, p)[..|a|] == a && Join(b, p)[..|b|] == b;
  }

  lemma NameRelative(dir: string)
    requires |dir| >= 4 && dir[0] != '/'
    ensures !Absolute(ZkeyFile(CircuitName(dir)))
  {
    var name := CircuitName(dir);
    assert ZkeyFile(name)[0] == if |name| > 0 then name[0] else '.';
  }

  /** For circuit folders named as the build names them and an absolute folder of
      proving keys, both stages go back to what startup saw: the witness stage to the
      same folder, the proof stage to the path whose existence was checked. */
  lemma ArtifactsCoherent(dirs: seq<string>, zkeyFolder: string, files: set<string>, m: map<string, string>, i: nat)
    requires ZkeyTable(dirs, |dirs|, zkeyFolder, files, m)
    requires i < |dirs| && EndsWithCpp(dirs[i])
    requires dirs[i][0] != '/' && Absolute(zkeyFolder)
    ensures CircuitDir(CircuitName(dirs[i])) == dirs[i]
    ensures var name := CircuitName(dirs[i]);
            name in m && Join(zkeyFolder, m[name]) == m[name] && m[name] in files
  {
    StripThenAppend(dirs[i]);
    var name := CircuitName(dirs[i]);
    NameRelative(dirs[i]);
    DoubleJoin(zkeyFolder, ZkeyFile(name));
  }
}
