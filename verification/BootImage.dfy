/** The boot image: what the image maker writes, and what the boot file system reads from it. */
module BootImage {

  type Byte = x: int | 0 <= x < 256

  const PAGE := 4096
  const NAMELEN := 32
  const ENTRY := 64
  const MAX_ENTRIES := 64
  const LIMIT := 0x8000_0000

  /** Object types, as the directory numbers them from 2; 0 marks an entry not in use, 1 the directory. */
  datatype Kind = Bootstrap | Code | Data | Elf32

  datatype Section = Section(name: seq<Byte>, kind: Kind, file: seq<Byte>, vaddr: nat, ventry: nat)

  datatype Entry = Entry(name: seq<Byte>, offset: nat, kind: nat, size: nat, vsize: nat, vaddr: nat, ventry: nat)

  datatype Inode = Inode(name: seq<Byte>, offset: nat, size: nat)

  datatype Result<T> = Ok(value: T) | Dies

  datatype Found = NotFound | Found(inode: Inode)

  /** "SBBB/Directory" */
  const DIRECTORY: seq<Byte> := [83, 66, 66, 66, 47, 68, 105, 114, 101, 99, 116, 111, 114, 121]
  const DOT: seq<Byte> := [46]
  const DOTDOT: seq<Byte> := [46, 46]

  function KindCode(k: Kind): (c: nat)
    ensures 2 <= c <= 5
  {
    match k case Bootstrap => 2 case Code => 3 case Data => 4 case Elf32 => 5
  }

  // ---------------------------------------------------------------- numbers and names as bytes

  function Le4(x: nat): (b: seq<Byte>)
    ensures |b| == 4
  {
    var x1: nat := x / 256;
    var x2: nat := x / 65536;
    var x3: nat := x / 16777216;
    [x % 256, x1 % 256, x2 % 256, x3 % 256]
  }

  function UnLe4(b: seq<Byte>): nat
    requires |b| == 4
  {
    var b0: nat, b1: nat, b2: nat, b3: nat := b[0], b[1], b[2], b[3];
    b0 + 256 * b1 + 65536 * b2 + 16777216 * b3
  }

  lemma Le4RoundTrip(x: nat)
    requires x < LIMIT
    ensures UnLe4(Le4(x)) == x
  {
    var y, z := x / 256, x / 65536;
    assert x == 256 * y + x % 256 && y == 256 * (y / 256) + y % 256 && y / 256 == z;
    assert z == 256 * (z / 256) + z % 256 && z / 256 == x / 16777216;
  }

  function Zeros(n: nat): (z: seq<Byte>)
    ensures |z| == n && forall i :: 0 <= i < n ==> z[i] == 0
  {
    seq(n, _ => 0)
  }

  /** A name as it fits the field: at most 31 bytes. */
  function Trunc(name: seq<Byte>): (t: seq<Byte>)
    ensures |t| < NAMELEN && t <= name && (|name| < NAMELEN ==> t == name)
  {
    if |name| < NAMELEN then name else name[..NAMELEN - 1]
  }

  function NameField(name: seq<Byte>): (b: seq<Byte>)
    ensures |b| == NAMELEN
  {
    Trunc(name) + Zeros(NAMELEN - |Trunc(name)|)
  }

  /** The bytes before the first zero. */
  function ReadName(b: seq<Byte>): (n: seq<Byte>)
    ensures |n| <= |b|
  {
    if b == [] || b[0] == 0 then [] else [b[0]] + ReadName(b[1..])
  }

  ghost predicate Text(name: seq<Byte>) {
    forall i :: 0 <= i < |name| ==> name[i] != 0
  }

  lemma {:induction false} NameRoundTrip(t: seq<Byte>, n: nat)
    requires Text(t) && n > 0
    ensures ReadName(t + Zeros(n)) == t
  {
    if t != [] {
      assert (t + Zeros(n))[1..] == t[1..] + Zeros(n);
      NameRoundTrip(t[1..], n);
    }
  }

  function EncodeEntry(e: Entry): (b: seq<Byte>)
    ensures |b| == ENTRY
  {
    NameField(e.name) + Le4(e.offset) + Le4(e.kind) + Le4(e.size) + Le4(e.vsize) + Le4(e.vaddr) + Le4(e.ventry)
      + Le4(0) + Le4(0)
  }

  function DecodeEntry(b: seq<Byte>): Entry
    requires |b| == ENTRY
  {
    Entry(ReadName(b[..32]), UnLe4(b[32..36]), UnLe4(b[36..40]), UnLe4(b[40..44]), UnLe4(b[44..48]),
          UnLe4(b[48..52]), UnLe4(b[52..56]))
  }

  ghost predicate Encodable(e: Entry) {
    && Text(e.name) && |e.name| < NAMELEN && e.offset < LIMIT && e.kind < LIMIT && e.size < LIMIT && e.vsize < LIMIT
    && e.vaddr < LIMIT && e.ventry < LIMIT
  }

  /** Where the fields of an entry lie. */
  lemma EntryFields(e: Entry)
    ensures var b := EncodeEntry(e);
      && b[..32] == NameField(e.name) && b[32..36] == Le4(e.offset) && b[36..40] == Le4(e.kind)
      && b[40..44] == Le4(e.size) && b[44..48] == Le4(e.vsize) && b[48..52] == Le4(e.vaddr)
         && b[52..56] == Le4(e.ventry)
  {
    hide NameField, Le4;
  }

  lemma EntryRoundTrip(e: Entry)
    requires Encodable(e)
    ensures DecodeEntry(EncodeEntry(e)) == e
  {
    EntryFields(e);
    NameRoundTrip(e.name, NAMELEN - |e.name|);
    assert ReadName(NameField(e.name)) == e.name;
    hide EncodeEntry, NameField, ReadName, Le4, UnLe4, Text;
    Le4RoundTrip(e.offset);
    Le4RoundTrip(e.kind);
    Le4RoundTrip(e.size);
    Le4RoundTrip(e.vsize);
    Le4RoundTrip(e.vaddr);
    Le4RoundTrip(e.ventry);
  }

  // ---------------------------------------------------------------- the layout

  function PagesOf(n: nat): nat { n / PAGE + if n % PAGE != 0 then 1 else 0 }

  /** The page the file of section k starts at; the directory is page 0. */
  ghost function OffsetOf(ss: seq<Section>, k: nat): (o: nat)
    requires k <= |ss|
    ensures o >= 1
  {
    if k == 0 then 1 else OffsetOf(ss, k - 1) + PagesOf(|ss[k - 1].file|)
  }

  ghost function EntryOf(ss: seq<Section>, k: nat): Entry
    requires k < |ss|
  {
    var x := ss[k];
    var code := x.kind == Bootstrap || x.kind == Code;
    Entry(Trunc(x.name), OffsetOf(ss, k), KindCode(x.kind), PagesOf(|x.file|), |x.file|,
          if code then x.vaddr else 0, if code then x.ventry else 0)
  }

  const DIR_ENTRY := Entry(DIRECTORY, 0, 1, 1, 1, 0, 0)

  function EncodeAll(es: seq<Entry>): (b: seq<Byte>)
    ensures |b| == ENTRY * |es|
  {
    if es == [] then [] else EncodeAll(es[..|es| - 1]) + EncodeEntry(es[|es| - 1])
  }

  ghost function EntriesOf(ss: seq<Section>): seq<Entry> {
    [DIR_ENTRY] + seq(|ss|, k requires 0 <= k < |ss| => EntryOf(ss, k))
  }

  function Padded(f: seq<Byte>): (p: seq<Byte>)
    ensures |p| == PagesOf(|f|) * PAGE && f <= p
  {
    f + if |f| % PAGE != 0 then Zeros(PAGE - |f| % PAGE) else []
  }

  ghost function Body(ss: seq<Section>, k: nat): (b: seq<Byte>)
    requires k <= |ss|
    ensures |b| == (OffsetOf(ss, k) - 1) * PAGE
  {
    if k == 0 then [] else Body(ss, k - 1) + Padded(ss[k - 1].file)
  }

  ghost predicate Fits(ss: seq<Section>) {
    |ss| < MAX_ENTRIES - 1
  }

  ghost function DirPage(ss: seq<Section>): (b: seq<Byte>)
    requires Fits(ss)
    ensures |b| == PAGE
  {
    EncodeAll(EntriesOf(ss)) + Zeros(PAGE - ENTRY * (|ss| + 1))
  }

  ghost function Image(ss: seq<Section>): (b: seq<Byte>)
    requires Fits(ss)
    ensures |b| >= PAGE
  {
    DirPage(ss) + Body(ss, |ss|)
  }

  /** Files and addresses small enough for the directory's fields. */
  ghost predicate Small(ss: seq<Section>) {
    && OffsetOf(ss, |ss|) * PAGE < LIMIT
    && forall k {:trigger ss[k]} :: 0 <= k < |ss| ==> Text(ss[k].name) && ss[k].vaddr < LIMIT && ss[k].ventry < LIMIT
  }

  lemma {:induction false} OffsetsGrow(ss: seq<Section>, j: nat, k: nat)
    requires j <= k <= |ss|
    ensures OffsetOf(ss, j) <= OffsetOf(ss, k)
    ensures j < k ==> OffsetOf(ss, j) + PagesOf(|ss[j].file|) <= OffsetOf(ss, k)
    decreases k - j
  {
    if j < k { OffsetsGrow(ss, j, k - 1); }
  }

  /** No two files share a page, and none has the directory's. */
  lemma RangesDisjoint(ss: seq<Section>, j: nat, k: nat)
    requires j < k < |ss|
    ensures 1 <= OffsetOf(ss, j) && OffsetOf(ss, j) + PagesOf(|ss[j].file|) <= OffsetOf(ss, k)
  {
    OffsetsGrow(ss, j, k);
  }

  lemma SliceLeft(a: seq<Byte>, b: seq<Byte>, i: nat, j: nat)
    requires i <= j <= |a|
    ensures (a + b)[i..j] == a[i..j]
  {
  }

  lemma SliceRight(a: seq<Byte>, b: seq<Byte>, i: nat, j: nat)
    requires i <= j <= |b|
    ensures (a + b)[|a| + i..|a| + j] == b[i..j]
  {
  }

  lemma {:induction false} BodyHolds(ss: seq<Section>, k: nat, n: nat)
    requires k < n <= |ss|
    ensures var at := (OffsetOf(ss, k) - 1) * PAGE;
      at + |ss[k].file| <= |Body(ss, n)| && Body(ss, n)[at..at + |ss[k].file|] == ss[k].file
    decreases n
  {
    hide Padded;
    var at := (OffsetOf(ss, k) - 1) * PAGE;
    if n == k + 1 {
      SliceRight(Body(ss, k), Padded(ss[k].file), 0, |ss[k].file|);
    } else {
      BodyHolds(ss, k, n - 1);
      SliceLeft(Body(ss, n - 1), Padded(ss[n - 1].file), at, at + |ss[k].file|);
    }
  }

  lemma ImageHolds(ss: seq<Section>, k: nat)
    requires Fits(ss) && k < |ss|
    ensures var at := OffsetOf(ss, k) * PAGE;
      at + |ss[k].file| <= |Image(ss)| && Image(ss)[at..at + |ss[k].file|] == ss[k].file
  {
    hide Body, DirPage;
    BodyHolds(ss, k, |ss|);
    var at := OffsetOf(ss, k) * PAGE;
    SliceRight(DirPage(ss), Body(ss, |ss|), at - PAGE, at - PAGE + |ss[k].file|);
  }

  lemma {:induction false} EncodedAt(es: seq<Entry>, i: nat)
    requires i < |es|
    ensures EncodeAll(es)[ENTRY * i..ENTRY * i + ENTRY] == EncodeEntry(es[i])
  {
    var front := es[..|es| - 1];
    if i < |es| - 1 {
      EncodedAt(front, i);
      SliceLeft(EncodeAll(front), EncodeEntry(es[|es| - 1]), ENTRY * i, ENTRY * i + ENTRY);
    }
  }

  lemma EntriesEncodable(ss: seq<Section>, k: nat)
    requires Small(ss) && k < |ss|
    ensures Encodable(EntryOf(ss, k))
  {
    OffsetsGrow(ss, k, |ss|);
    assert Text(ss[k].name);
  }

  /** The directory read back: the entries written, and then entries not in use. */
  ghost function EntryIn(image: seq<Byte>, i: nat): Entry
    requires i < MAX_ENTRIES && |image| >= PAGE
  {
    DecodeEntry(image[ENTRY * i..ENTRY * i + ENTRY])
  }

  lemma EntryWritten(ss: seq<Section>, i: nat)
    requires Fits(ss) && i <= |ss|
    ensures Image(ss)[ENTRY * i..ENTRY * i + ENTRY] == EncodeEntry(EntriesOf(ss)[i])
  {
    hide EncodeEntry, Body;
    var es := EntriesOf(ss);
    SliceLeft(DirPage(ss), Body(ss, |ss|), ENTRY * i, ENTRY * i + ENTRY);
    SliceLeft(EncodeAll(es), Zeros(PAGE - ENTRY * (|ss| + 1)), ENTRY * i, ENTRY * i + ENTRY);
    EncodedAt(es, i);
  }

  lemma RestIsZero(ss: seq<Section>, i: nat)
    requires Fits(ss) && |ss| < i < MAX_ENTRIES
    ensures Image(ss)[ENTRY * i..ENTRY * i + ENTRY] == Zeros(ENTRY)
  {
    hide EncodeEntry, EncodeAll, Body;
    var z := Zeros(PAGE - ENTRY * (|ss| + 1));
    SliceLeft(DirPage(ss), Body(ss, |ss|), ENTRY * i, ENTRY * i + ENTRY);
    SliceRight(EncodeAll(EntriesOf(ss)), z, ENTRY * (i - |ss| - 1), ENTRY * (i - |ss| - 1) + ENTRY);
  }

  lemma DirectoryHolds(ss: seq<Section>, i: nat)
    requires Fits(ss) && Small(ss) && i < MAX_ENTRIES
    ensures i == 0 ==> EntryIn(Image(ss), i) == DIR_ENTRY
    ensures 0 < i <= |ss| ==> EntryIn(Image(ss), i) == EntryOf(ss, i - 1)
    ensures i > |ss| ==> EntryIn(Image(ss), i).kind == 0
  {
    hide Image, EncodeEntry;
    if i > |ss| {
      RestIsZero(ss, i);
    } else {
      EntryWritten(ss, i);
      if i > 0 { EntriesEncodable(ss, i - 1); }
      EntryRoundTrip(EntriesOf(ss)[i]);
    }
  }

  /** The little-endian number in four bytes of an image. */
  ghost function WordAt(b: seq<Byte>, at: nat): nat
    requires at + 4 <= |b|
  {
    var b0: nat, b1: nat, b2: nat, b3: nat := b[at], b[at + 1], b[at + 2], b[at + 3];
    b0 + b1 * 0x100 + b2 * 0x1_0000 + b3 * 0x100_0000
  }

  lemma WordIs(b: seq<Byte>, at: nat, x: nat)
    requires at + 4 <= |b| && b[at..at + 4] == Le4(x) && x < LIMIT
    ensures WordAt(b, at) == x
  {
    Le4RoundTrip(x);
    assert b[at] == Le4(x)[0] && b[at + 1] == Le4(x)[1] && b[at + 2] == Le4(x)[2] && b[at + 3] == Le4(x)[3];
  }

  lemma FieldIs(b: seq<Byte>, at: nat, e: seq<Byte>, f: nat, x: nat)
    requires at + ENTRY <= |b| && |e| == ENTRY && b[at..at + ENTRY] == e && f + 4 <= ENTRY && e[f..f + 4] == Le4(x)
      && x < LIMIT
    ensures WordAt(b, at + f) == x
  {
    hide Le4, WordAt;
    SubSlice(b, at, ENTRY, f, f + 4);
    WordIs(b, at + f, x);
  }

  lemma EntryWords(b: seq<Byte>, at: nat, e: Entry)
    requires at + ENTRY <= |b| && b[at..at + ENTRY] == EncodeEntry(e) && Encodable(e)
    ensures WordAt(b, at + 32) == e.offset && WordAt(b, at + 36) == e.kind && WordAt(b, at + 40) == e.size
    ensures WordAt(b, at + 44) == e.vsize && WordAt(b, at + 48) == e.vaddr && WordAt(b, at + 52) == e.ventry
  {
    hide EncodeEntry, Le4, WordAt;
    EntryFields(e);
    var f := EncodeEntry(e);
    FieldIs(b, at, f, 32, e.offset);
    FieldIs(b, at, f, 36, e.kind);
    FieldIs(b, at, f, 40, e.size);
    FieldIs(b, at, f, 44, e.vsize);
    FieldIs(b, at, f, 48, e.vaddr);
    FieldIs(b, at, f, 52, e.ventry);
  }

  lemma EntryName(b: seq<Byte>, at: nat, e: Entry)
    requires at + ENTRY <= |b| && b[at..at + ENTRY] == EncodeEntry(e) && Encodable(e)
    ensures b[at..at + |e.name|] == e.name && b[at + |e.name|] == 0
  {
    hide EncodeEntry;
    EntryFields(e);
    var field, n := NameField(e.name), |e.name|;
    SubSlice(b, at, ENTRY, 0, NAMELEN);
    assert b[at..at + NAMELEN] == field && field[..n] == e.name && field[n] == 0;
    SubSlice(b, at, NAMELEN, 0, n);
    assert b[at..at + NAMELEN][n] == b[at + n];
  }

  /** The directory byte by byte: section k has the entry after the directory's own and those before it, with its
      name, the page its file starts at, its type, its length in pages and in bytes, and for code the address it
      is loaded at and the address it is entered at. */
  lemma DirectoryBytes(ss: seq<Section>, k: nat)
    requires Fits(ss) && Small(ss) && k < |ss|
    ensures var b, at, x, name := Image(ss), ENTRY * (k + 1), ss[k], Trunc(ss[k].name);
      var code := x.kind == Bootstrap || x.kind == Code;
      && b[at..at + |name|] == name && b[at + |name|] == 0
      && WordAt(b, at + 36) == (match x.kind case Bootstrap => 2 case Code => 3 case Data => 4 case Elf32 => 5)
      && WordAt(b, at + 44) == |x.file| <= WordAt(b, at + 40) * PAGE < |x.file| + PAGE
      && WordAt(b, at + 48) == (if code then x.vaddr else 0) && WordAt(b, at + 52) == (if code then x.ventry else 0)
  {
    hide Image, EncodeEntry, WordAt;
    EntryWritten(ss, k + 1);
    EntriesEncodable(ss, k);
    EntryWords(Image(ss), ENTRY * (k + 1), EntryOf(ss, k));
    EntryName(Image(ss), ENTRY * (k + 1), EntryOf(ss, k));
  }

  /** The page that the directory names is where the file is. */
  lemma FileAtWord(ss: seq<Section>, k: nat)
    requires Fits(ss) && Small(ss) && k < |ss|
    ensures var b := Image(ss);
      var start := WordAt(b, ENTRY * (k + 1) + 32) * PAGE;
      start >= PAGE && start + |ss[k].file| <= |b| && b[start..start + |ss[k].file|] == ss[k].file
  {
    hide Image, EncodeEntry, WordAt;
    EntryWritten(ss, k + 1);
    EntriesEncodable(ss, k);
    EntryWords(Image(ss), ENTRY * (k + 1), EntryOf(ss, k));
    ImageHolds(ss, k);
  }

  // ---------------------------------------------------------------- the file system

  predicate Listed(e: Entry) { e.kind != 0 && e.name != DIRECTORY }

  function InodeOf(e: Entry): Inode { Inode(Trunc(e.name), e.offset, e.vsize) }

  /** The inodes after the first n entries of the directory: the latest first, the two dots last. */
  ghost function Inodes(image: seq<Byte>, n: nat): seq<Inode>
    requires n <= MAX_ENTRIES && |image| >= PAGE
  {
    if n == 0 then [Inode(DOT, 0, 0), Inode(DOTDOT, 0, 0)]
    else if Listed(EntryIn(image, n - 1)) then [InodeOf(EntryIn(image, n - 1))] + Inodes(image, n - 1)
    else Inodes(image, n - 1)
  }

  ghost function Lookup(list: seq<Inode>, path: seq<Byte>): Found {
    if list == [] then NotFound else if list[0].name == path then Found(list[0]) else Lookup(list[1..], path)
  }

  ghost function ReadAt(image: seq<Byte>, x: Inode, count: nat, offset: nat): seq<Byte>
    requires x.offset * PAGE + x.size <= |image|
  {
    if offset >= x.size then []
    else
      var n := if count <= x.size - offset then count else x.size - offset;
      image[x.offset * PAGE + offset..x.offset * PAGE + offset + n]
  }

  ghost function SliceOf(f: seq<Byte>, count: nat, offset: nat): seq<Byte> {
    if offset >= |f| then [] else if offset + count <= |f| then f[offset..offset + count] else f[offset..]
  }

  /** Section k is the last one that goes by this name, and its name is not the directory's. */
  ghost predicate LastNamed(ss: seq<Section>, k: nat, path: seq<Byte>) {
    && k < |ss| && Trunc(ss[k].name) == path && path != DIRECTORY
    && forall j {:trigger ss[j]} :: k < j < |ss| ==> Trunc(ss[j].name) != path
  }

  lemma {:induction false} Finds(ss: seq<Section>, k: nat, path: seq<Byte>, n: nat)
    requires Fits(ss) && Small(ss) && LastNamed(ss, k, path) && k + 2 <= n <= MAX_ENTRIES
    ensures Lookup(Inodes(Image(ss), n), path) == Found(Inode(path, OffsetOf(ss, k), |ss[k].file|))
    decreases n
  {
    hide Image, EntryIn;
    DirectoryHolds(ss, n - 1);
    var list := Inodes(Image(ss), n);
    if n == k + 2 {
      assert list[0] == InodeOf(EntryOf(ss, k));
    } else {
      Finds(ss, k, path, n - 1);
      if Listed(EntryIn(Image(ss), n - 1)) { assert list[1..] == Inodes(Image(ss), n - 1); }
    }
  }

  lemma ReadsSlice(image: seq<Byte>, x: Inode, f: seq<Byte>, count: nat, offset: nat)
    requires x.size == |f| && x.offset * PAGE + |f| <= |image| && image[x.offset * PAGE..x.offset * PAGE + |f|] == f
    ensures ReadAt(image, x, count, offset) == SliceOf(f, count, offset)
  {
    var at := x.offset * PAGE;
    if offset < |f| {
      var n := if count <= |f| - offset then count else |f| - offset;
      SubSlice(image, at, |f|, offset, offset + n);
    }
  }

  lemma SubSlice(a: seq<Byte>, at: nat, n: nat, i: nat, j: nat)
    requires at + n <= |a| && i <= j <= n
    ensures a[at..at + n][i..j] == a[at + i..at + j]
  {
    var b, c := a[at..at + n][i..j], a[at + i..at + j];
    forall k | 0 <= k < j - i ensures b[k] == c[k] { assert b[k] == a[at..at + n][i + k]; }
  }

  /** Reading back: the file that goes by a name, from any offset and of any length, as it went in. */
  lemma ReadBack(ss: seq<Section>, k: nat, path: seq<Byte>, count: nat, offset: nat)
    requires Fits(ss) && Small(ss) && LastNamed(ss, k, path)
    ensures var found := Lookup(Inodes(Image(ss), MAX_ENTRIES), path);
      && found.Found? && found.inode.offset * PAGE + found.inode.size <= |Image(ss)|
      && ReadAt(Image(ss), found.inode, count, offset) == SliceOf(ss[k].file, count, offset)
  {
    hide Image, Inodes, Lookup, ReadAt, SliceOf;
    Finds(ss, k, path, MAX_ENTRIES);
    ImageHolds(ss, k);
    ReadsSlice(Image(ss), Inode(path, OffsetOf(ss, k), |ss[k].file|), ss[k].file, count, offset);
  }

  /** No section goes by this name, or only the directory does. */
  ghost predicate Unnamed(ss: seq<Section>, path: seq<Byte>) {
    path == DIRECTORY || forall k {:trigger ss[k]} :: 0 <= k < |ss| ==> Trunc(ss[k].name) != path
  }

  lemma {:induction false} LastOne(ss: seq<Section>, path: seq<Byte>, n: nat) returns (k: nat)
    requires n <= |ss| && path != DIRECTORY && (exists j :: 0 <= j < n && Trunc(ss[j].name) == path)
    requires forall j {:trigger ss[j]} :: n <= j < |ss| ==> Trunc(ss[j].name) != path
    ensures LastNamed(ss, k, path)
    decreases n
  {
    if Trunc(ss[n - 1].name) == path { k := n - 1; } else { k := LastOne(ss, path, n - 1); }
  }

  lemma {:induction false} Misses(ss: seq<Section>, path: seq<Byte>, n: nat)
    requires Fits(ss) && Small(ss) && Unnamed(ss, path) && n <= MAX_ENTRIES
    ensures Lookup(Inodes(Image(ss), n), path) == Lookup(Inodes(Image(ss), 0), path)
    decreases n
  {
    hide Image, EntryIn;
    if n > 0 {
      DirectoryHolds(ss, n - 1);
      Misses(ss, path, n - 1);
      var list := Inodes(Image(ss), n);
      if Listed(EntryIn(Image(ss), n - 1)) { assert list[1..] == Inodes(Image(ss), n - 1); }
    }
  }

  // ---------------------------------------------------------------- the code

  lemma OneMoreEntry(ss: seq<Section>, c: nat, e: Entry)
    requires 1 <= c <= |ss| && e == EntryOf(ss, c - 1)
    ensures EntriesOf(ss)[..c + 1] == EntriesOf(ss)[..c] + [e]
  {
  }

  /** Lays the sections out one after the other. */
  method Layout(ss: seq<Section>) returns (r: Result<seq<Entry>>)
    ensures r.Ok? <==> Fits(ss)
    ensures r.Ok? ==> r.value == EntriesOf(ss)
  {
    var es, next, c := [DIR_ENTRY], 1, 1;
    while c - 1 < |ss|
      invariant 1 <= c <= |ss| + 1 && c <= MAX_ENTRIES - 1 && next == OffsetOf(ss, c - 1)
      invariant es == EntriesOf(ss)[..c]
    {
      var x := ss[c - 1];
      var size := PagesOf(|x.file|);
      var vsize := if |x.file| < size then size else |x.file|;
      var code := x.kind == Bootstrap || x.kind == Code;
      var e := Entry(Trunc(x.name), next, KindCode(x.kind), size, vsize,
                     if code then x.vaddr else 0, if code then x.ventry else 0);
      OneMoreEntry(ss, c, e);
      es := es + [e];
      next := next + size;
      c := c + 1;
      if c == MAX_ENTRIES { return Dies; }
    }
    return Ok(es);
  }

  /** Writes the directory and every file, each filled up to whole pages. */
  method MakeBoot(ss: seq<Section>) returns (r: Result<seq<Byte>>)
    ensures r.Ok? <==> Fits(ss)
    ensures r.Ok? ==> r.value == Image(ss)
  {
    hide EncodeAll, Padded;
    var es := Layout(ss);
    if es.Dies? { return Dies; }
    var image := EncodeAll(es.value) + Zeros(PAGE - ENTRY * |es.value|);
    var i := 0;
    while i < |ss|
      invariant 0 <= i <= |ss| && image == DirPage(ss) + Body(ss, i)
    {
      image := image + Padded(ss[i].file);
      i := i + 1;
    }
    return Ok(image);
  }

  /** Reads the directory into a list of inodes. */
  method Mount(image: seq<Byte>) returns (list: seq<Inode>)
    requires |image| >= PAGE
    ensures list == Inodes(image, MAX_ENTRIES)
  {
    list := [Inode(DOT, 0, 0), Inode(DOTDOT, 0, 0)];
    var i := 0;
    while i < MAX_ENTRIES
      invariant 0 <= i <= MAX_ENTRIES && list == Inodes(image, i)
    {
      var e := DecodeEntry(image[ENTRY * i..ENTRY * i + ENTRY]);
      if e.kind != 0 && e.name != DIRECTORY { list := [Inode(Trunc(e.name), e.offset, e.vsize)] + list; }
      i := i + 1;
    }
  }

  method Walk(list: seq<Inode>, path: seq<Byte>) returns (r: Found)
    ensures r == Lookup(list, path)
  {
    var rest := list;
    while rest != []
      invariant Lookup(rest, path) == Lookup(list, path)
      decreases |rest|
    {
      if rest[0].name == path { return Found(rest[0]); }
      rest := rest[1..];
    }
    return NotFound;
  }

  method Read(image: seq<Byte>, x: Inode, count: nat, offset: nat) returns (buf: seq<Byte>)
    requires x.offset * PAGE + x.size <= |image|
    ensures buf == ReadAt(image, x, count, offset)
  {
    if offset >= x.size { return []; }
    var src := x.offset * PAGE + offset;
    var n := if count <= x.size - offset then count else x.size - offset;
    buf := image[src..src + n];
  }

  lemma DotsOnly(image: seq<Byte>, path: seq<Byte>)
    requires |image| >= PAGE
    ensures var found := Lookup(Inodes(image, 0), path);
      && (found.Found? <==> path == DOT || path == DOTDOT)
      && (found.Found? ==> found.inode.offset == 0 && found.inode.size == 0)
  {
    var list := [Inode(DOT, 0, 0), Inode(DOTDOT, 0, 0)];
    assert Inodes(image, 0) == list && list[1..] == [Inode(DOTDOT, 0, 0)] && list[1..][1..] == [];
    assert Lookup(list[1..], path) == if path == DOTDOT then Found(Inode(DOTDOT, 0, 0)) else NotFound;
  }

  /** What a whole read of an image gives, for every name. */
  lemma WholeRead(ss: seq<Section>, path: seq<Byte>, count: nat, offset: nat)
    requires Fits(ss) && Small(ss)
    ensures var found := Lookup(Inodes(Image(ss), MAX_ENTRIES), path);
      && (found.Found? ==> found.inode.offset * PAGE + found.inode.size <= |Image(ss)|)
      && (forall k: nat {:trigger LastNamed(ss, k, path)} :: LastNamed(ss, k, path) ==>
            found.Found? && ReadAt(Image(ss), found.inode, count, offset) == SliceOf(ss[k].file, count, offset))
      && (Unnamed(ss, path) ==> (found.Found? <==> path == DOT || path == DOTDOT))
      && (Unnamed(ss, path) && found.Found? ==> ReadAt(Image(ss), found.inode, count, offset) == [])
  {
    hide Image, Inodes, Lookup, SliceOf;
    if Unnamed(ss, path) {
      Misses(ss, path, MAX_ENTRIES);
      DotsOnly(Image(ss), path);
    } else {
      var k := LastOne(ss, path, |ss|);
      forall j: nat | LastNamed(ss, j, path) ensures j == k {}
      ReadBack(ss, k, path, count, offset);
    }
  }

  /** A whole read: the directory is listed, the name looked up, and the bytes fetched. An image that MakeBoot wrote
      gives back the file that went in last under the name, from any offset and of any length, and nothing under
      any other name. */
  method ReadFile(image: seq<Byte>, path: seq<Byte>, count: nat, offset: nat, ghost ss: seq<Section>)
    returns (found: bool, buf: seq<Byte>)
    requires Fits(ss) && Small(ss) && image == Image(ss)
    ensures forall k: nat {:trigger LastNamed(ss, k, path)} :: LastNamed(ss, k, path) ==>
      found && buf == SliceOf(ss[k].file, count, offset)
    ensures Unnamed(ss, path) ==> found == (path == DOT || path == DOTDOT) && buf == []
  {
    hide Image, Inodes, Lookup, ReadAt, SliceOf, Unnamed;
    WholeRead(ss, path, count, offset);
    var list := Mount(image);
    var r := Walk(list, path);
    if r.NotFound? { return false, []; }
    buf := Read(image, r.inode, count, offset);
    return true, buf;
  }
}
