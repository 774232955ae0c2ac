/** The Format Ranker: turns the extractor's raw format entries into the
    client-facing list of the `/api/fetch` response. Each raw entry is
    normalised (kind, resolution label, size, note), entries without a format
    identifier are dropped, the rest are sorted by kind priority and then by
    size, both descending, and the list is cut to twenty entries. */
module FormatRanker {
  import opened JsValues

  /** One entry of the extractor's `formats` array; every field may be absent. */
  datatype RawFormat = RawFormat(
    formatId: Option<string>,
    ext: Option<string>,
    vcodec: Option<string>,
    acodec: Option<string>,
    resolution: Option<string>,
    height: Option<nat>,
    filesize: Option<nat>,
    filesizeApprox: Option<nat>,
    formatNote: Option<string>,
    quality: Option<int>)

  /** The gateway's own three-way classification of a format. */
  datatype Kind = VideoAndAudio | VideoOnly | AudioOnly

  /** `note` is the textual `format_note` or, failing that, the extractor's
      numeric `quality`, or the empty string. */
  datatype Note = Text(text: string) | Quality(rank: int)

  /** One entry of the client-facing `formats` list. */
  datatype ClientFormat = ClientFormat(
    formatId: Option<string>,
    extension: Option<string>,
    resolution: string,
    filesize: nat,
    note: Note,
    kind: Kind)

  /** Sort key of a client format: kind priority, then size. */
  datatype SortKey = SortKey(priority: int, size: nat)

  /** The number of entries the response shows at most. */
  const MaxFormats: nat := 20

  /** The extractor's marker for "this stream has no such track". An absent
      codec field is not the marker. */
  predicate IsNoCodec(codec: Option<string>) {
    codec == Some("none")
  }

  /** The kind is decided by the codec fields alone: it starts as
      Video + Audio and is overridden by the two one-track cases. */
  function Classify(f: RawFormat): (k: Kind)
    ensures k == VideoOnly <==> !IsNoCodec(f.vcodec) && IsNoCodec(f.acodec)
    ensures k == AudioOnly <==> IsNoCodec(f.vcodec) && !IsNoCodec(f.acodec)
    ensures k == VideoAndAudio <==> (IsNoCodec(f.vcodec) <==> IsNoCodec(f.acodec))
  {
    var initial := VideoAndAudio;
    var afterVideoCheck := if !IsNoCodec(f.vcodec) && IsNoCodec(f.acodec) then VideoOnly else initial;
    if IsNoCodec(f.vcodec) && !IsNoCodec(f.acodec) then AudioOnly else afterVideoCheck
  }

  /** The resolution label: the explicit resolution, else `{height}p`, else
      the generic word for whichever track the video codec says is there. */
  function ResolutionLabel(f: RawFormat): (r: string)
    ensures r != ""
    ensures Truthy(f.resolution) ==> r == f.resolution.value
    ensures !Truthy(f.resolution) && f.height.Some? && f.height.value != 0 ==>
              r == NatToString(f.height.value) + "p"
    ensures !Truthy(f.resolution) && !(f.height.Some? && f.height.value != 0) ==>
              r == (if !IsNoCodec(f.vcodec) then "Video" else "Audio")
  {
    if Truthy(f.resolution) then f.resolution.value
    else if f.height.Some? && f.height.value != 0 then NatToString(f.height.value) + "p"
    else if !IsNoCodec(f.vcodec) then "Video"
    else "Audio"
  }

  /** A label derived from the height names exactly that height: stripping
      the trailing `p` and reading the digits gives the height back. */
  lemma HeightLabelRoundTrip(f: RawFormat)
    requires !Truthy(f.resolution) && f.height.Some? && f.height.value != 0
    ensures var r := ResolutionLabel(f);
            |r| >= 2 && r[|r| - 1] == 'p' && AllDigits(r[..|r| - 1]) &&
            ParseDigits(r[..|r| - 1]) == f.height.value
  {
    var r := ResolutionLabel(f);
    assert r[..|r| - 1] == NatToString(f.height.value);
    NatToStringRoundTrip(f.height.value);
  }

  /** `filesize || filesize_approx || 0`: the first non-zero size, else 0. */
  function FileSize(f: RawFormat): (r: nat)
    ensures r == 0 <==> (f.filesize.None? || f.filesize.value == 0) &&
                         (f.filesizeApprox.None? || f.filesizeApprox.value == 0)
    ensures f.filesize.Some? && f.filesize.value != 0 ==> r == f.filesize.value
    ensures (f.filesize.None? || f.filesize.value == 0) && r != 0 ==> r == f.filesizeApprox.value
  {
    if f.filesize.Some? && f.filesize.value != 0 then f.filesize.value
    else if f.filesizeApprox.Some? && f.filesizeApprox.value != 0 then f.filesizeApprox.value
    else 0
  }

  /** `format_note || quality || ''`: the first truthy one, else empty text. */
  function NoteOf(f: RawFormat): (r: Note)
    ensures Truthy(f.formatNote) ==> r == Text(f.formatNote.value)
    ensures !Truthy(f.formatNote) && TruthyNum(f.quality) ==> r == Quality(f.quality.value)
    ensures !Truthy(f.formatNote) && !TruthyNum(f.quality) ==> r == Text("")
  {
    if Truthy(f.formatNote) then Text(f.formatNote.value)
    else if TruthyNum(f.quality) then Quality(f.quality.value)
    else Text("")
  }

  /** The client record for one raw entry. */
  function Normalise(f: RawFormat): (c: ClientFormat)
    ensures c.formatId == f.formatId && c.extension == f.ext
    ensures c.resolution != ""
  {
    ClientFormat(f.formatId, f.ext, ResolutionLabel(f), FileSize(f), NoteOf(f), Classify(f))
  }

  /** `formats.map(normalise)`. */
  function NormaliseAll(raw: seq<RawFormat>): (r: seq<ClientFormat>)
    ensures |r| == |raw|
    ensures forall i :: 0 <= i < |raw| ==> r[i] == Normalise(raw[i])
  {
    seq(|raw|, i requires 0 <= i < |raw| => Normalise(raw[i]))
  }

  /** `.filter(f => f.format_id)`: keeps, in order, the entries whose format
      identifier is truthy. */
  function KeepIdentified(s: seq<ClientFormat>): (r: seq<ClientFormat>)
    ensures |r| <= |s|
    ensures forall i :: 0 <= i < |r| ==> Truthy(r[i].formatId)
  {
    if s == [] then []
    else if Truthy(s[0].formatId) then [s[0]] + KeepIdentified(s[1..])
    else KeepIdentified(s[1..])
  }

  /** Each entry with a truthy identifier is kept exactly as often as it
      occurs; every other entry is gone. */
  lemma {:induction false} KeepIdentifiedCounts(s: seq<ClientFormat>, x: ClientFormat)
    ensures multiset(KeepIdentified(s))[x] == if Truthy(x.formatId) then multiset(s)[x] else 0
  {
    if s != [] {
      KeepIdentifiedCounts(s[1..], x);
      assert s == [s[0]] + s[1..];
    }
  }

  /** Combined streams first, then video-only, then audio-only. */
  function Priority(k: Kind): (p: int)
    ensures 1 <= p <= 3
    ensures k == VideoAndAudio ==> p == 3
    ensures k == VideoOnly ==> p == 2
    ensures k == AudioOnly ==> p == 1
  {
    match k
    case VideoAndAudio => 3
    case VideoOnly => 2
    case AudioOnly => 1
  }

  function Key(c: ClientFormat): SortKey {
    SortKey(Priority(c.kind), c.filesize)
  }

  /** The comparator handed to `Array.prototype.sort`: negative when `a`
      goes first, zero when the two tie. */
  function Compare(a: ClientFormat, b: ClientFormat): (r: int)
    ensures r == 0 <==> Key(a) == Key(b)
    ensures r < 0 <==> Priority(a.kind) > Priority(b.kind) ||
                       (a.kind == b.kind && a.filesize > b.filesize)
    ensures r > 0 <==> Priority(a.kind) < Priority(b.kind) ||
                       (a.kind == b.kind && a.filesize < b.filesize)
  {
    if Priority(b.kind) != Priority(a.kind) then Priority(b.kind) - Priority(a.kind)
    else b.filesize - a.filesize
  }

  /** Every earlier entry goes before, or ties with, every later one. */
  ghost predicate Sorted(s: seq<ClientFormat>) {
    forall i, j :: 0 <= i < j < |s| ==> Compare(s[i], s[j]) <= 0
  }

  /** The entries of `s` with sort key `k`, in their order in `s`. */
  function Select(s: seq<ClientFormat>, k: SortKey): seq<ClientFormat> {
    if s == [] then []
    else if Key(s[0]) == k then [s[0]] + Select(s[1..], k)
    else Select(s[1..], k)
  }

  /** A stable arrangement: `r` holds, for every sort key, exactly the entries
      of `s` with that key, in the order they have in `s`. */
  ghost predicate StableArrangement(s: seq<ClientFormat>, r: seq<ClientFormat>) {
    forall k :: Select(r, k) == Select(s, k)
  }

  lemma {:induction false} SelectMembership(s: seq<ClientFormat>, k: SortKey, x: ClientFormat)
    ensures x in Select(s, k) <==> x in s && Key(x) == k
  {
    if s != [] {
      SelectMembership(s[1..], k, x);
      assert s == [s[0]] + s[1..];
    }
  }

  /** The filter keeps input order: for every sort key, filtering and then
      selecting that key is selecting and then filtering. */
  lemma {:induction false} KeepIdentifiedSelect(s: seq<ClientFormat>, k: SortKey)
    ensures Select(KeepIdentified(s), k) == KeepIdentified(Select(s, k))
  {
    if s != [] {
      KeepIdentifiedSelect(s[1..], k);
    }
  }

  /** Puts `x` in front of the first entry it goes before or ties with. */
  function Insert(x: ClientFormat, l: seq<ClientFormat>): seq<ClientFormat> {
    if l == [] then [x]
    else if Compare(x, l[0]) <= 0 then [x] + l
    else [l[0]] + Insert(x, l[1..])
  }

  /** `.sort(compare)`, which ECMAScript requires to be stable; written as an
      insertion sort that inserts each entry ahead of the ones it ties with. */
  function SortFormats(s: seq<ClientFormat>): seq<ClientFormat> {
    if s == [] then [] else Insert(s[0], SortFormats(s[1..]))
  }

  lemma {:induction false} InsertCounts(x: ClientFormat, l: seq<ClientFormat>)
    ensures multiset(Insert(x, l)) == multiset(l) + multiset{x}
  {
    if l != [] && Compare(x, l[0]) > 0 {
      InsertCounts(x, l[1..]);
      assert l == [l[0]] + l[1..];
    }
  }

  lemma {:induction false} InsertSorted(x: ClientFormat, l: seq<ClientFormat>)
    requires Sorted(l)
    ensures Sorted(Insert(x, l))
  {
    if l != [] && Compare(x, l[0]) > 0 {
      var t := Insert(x, l[1..]);
      InsertSorted(x, l[1..]);
      InsertCounts(x, l[1..]);
      forall j | 0 <= j < |t|
        ensures Compare(l[0], t[j]) <= 0
      {
        assert t[j] in multiset(t);
        assert t[j] == x || t[j] in l[1..];
      }
    }
  }

  lemma {:induction false} InsertSelect(x: ClientFormat, l: seq<ClientFormat>, k: SortKey)
    ensures Select(Insert(x, l), k) == if Key(x) == k then [x] + Select(l, k) else Select(l, k)
  {
    if l != [] && Compare(x, l[0]) > 0 {
      InsertSelect(x, l[1..], k);
    }
  }

  /** The sorted list is ordered by the comparator. */
  lemma {:induction false} SortFormatsSorted(s: seq<ClientFormat>)
    ensures Sorted(SortFormats(s))
  {
    if s != [] {
      SortFormatsSorted(s[1..]);
      InsertSorted(s[0], SortFormats(s[1..]));
    }
  }

  /** The sort is stable: entries that tie keep their input order. */
  lemma {:induction false} SortFormatsStable(s: seq<ClientFormat>)
    ensures StableArrangement(s, SortFormats(s))
  {
    forall k
      ensures Select(SortFormats(s), k) == Select(s, k)
    {
      SortFormatsSelect(s, k);
    }
  }

  lemma {:induction false} SortFormatsSelect(s: seq<ClientFormat>, k: SortKey)
    ensures Select(SortFormats(s), k) == Select(s, k)
  {
    if s != [] {
      SortFormatsSelect(s[1..], k);
      InsertSelect(s[0], SortFormats(s[1..]), k);
    }
  }

  /** The sort is a permutation: every entry occurs as often as in the input. */
  lemma {:induction false} SortFormatsPermutation(s: seq<ClientFormat>)
    ensures multiset(SortFormats(s)) == multiset(s)
  {
    if s != [] {
      SortFormatsPermutation(s[1..]);
      InsertCounts(s[0], SortFormats(s[1..]));
      assert s == [s[0]] + s[1..];
    }
  }

  lemma SortedTail(s: seq<ClientFormat>)
    requires Sorted(s) && s != []
    ensures Sorted(s[1..])
  {
  }

  lemma SelectOwnKey(s: seq<ClientFormat>)
    requires s != []
    ensures Select(s, Key(s[0])) != []
  {
  }

  /** In a sorted list the head goes before, or ties with, any member. */
  lemma HeadFirst(s: seq<ClientFormat>, x: ClientFormat)
    requires Sorted(s) && x in s
    ensures Compare(s[0], x) <= 0
  {
  }

  /** Two sorted, stable arrangements of the same entries are equal. */
  lemma {:induction false} SortedArrangementUnique(r1: seq<ClientFormat>, r2: seq<ClientFormat>)
    requires Sorted(r1) && Sorted(r2)
    requires forall k :: Select(r1, k) == Select(r2, k)
    ensures r1 == r2
    decreases |r1|
  {
    if r1 == [] && r2 != [] {
      SelectOwnKey(r2);
      assert false;
    } else if r1 != [] && r2 == [] {
      SelectOwnKey(r1);
      assert false;
    } else if r1 != [] {
      var k := Key(r1[0]);
      SelectMembership(r1, k, r1[0]);
      SelectMembership(r2, k, r1[0]);
      SelectMembership(r2, Key(r2[0]), r2[0]);
      SelectMembership(r1, Key(r2[0]), r2[0]);
      HeadFirst(r2, r1[0]);
      HeadFirst(r1, r2[0]);
      assert Key(r2[0]) == k;
      assert Select(r1, k)[0] == r1[0] && Select(r2, k)[0] == r2[0];
      assert r1[0] == r2[0];
      forall k' ensures Select(r1[1..], k') == Select(r2[1..], k') {
        assert Select(r1, k') == Select(r2, k');
        if Key(r1[0]) == k' {
          assert Select(r1, k') == [r1[0]] + Select(r1[1..], k');
          assert Select(r2, k') == [r1[0]] + Select(r2[1..], k');
          assert Select(r1, k')[1..] == Select(r1[1..], k');
          assert Select(r2, k')[1..] == Select(r2[1..], k');
        } else {
          assert Select(r1, k') == Select(r1[1..], k');
          assert Select(r2, k') == Select(r2[1..], k');
        }
      }
      SortedTail(r1);
      SortedTail(r2);
      SortedArrangementUnique(r1[1..], r2[1..]);
      assert r1 == [r1[0]] + r1[1..] && r2 == [r2[0]] + r2[1..];
    }
  }

  /** The model's sort is THE stable sort: any arrangement of the input that
      is ordered by the comparator and keeps tied entries in input order is
      exactly the one `SortFormats` returns. */
  lemma SortFormatsIsTheStableSort(s: seq<ClientFormat>, r: seq<ClientFormat>)
    requires Sorted(r) && StableArrangement(s, r)
    ensures r == SortFormats(s)
  {
    SortFormatsSorted(s);
    SortFormatsStable(s);
    SortedArrangementUnique(r, SortFormats(s));
  }

  /** `.slice(0, 20)`. */
  function Cap(s: seq<ClientFormat>): (r: seq<ClientFormat>)
    ensures r <= s
    ensures |r| == if |s| < MaxFormats then |s| else MaxFormats
  {
    if |s| <= MaxFormats then s else s[..MaxFormats]
  }

  /** The whole ranking pipeline: map, filter, sort, slice. */
  function RankFormats(raw: seq<RawFormat>): seq<ClientFormat> {
    Cap(SortFormats(KeepIdentified(NormaliseAll(raw))))
  }

  /** The list before truncation. */
  function FullRanking(raw: seq<RawFormat>): seq<ClientFormat> {
    SortFormats(KeepIdentified(NormaliseAll(raw)))
  }

  /** Sortedness by the comparator is exactly the kind order
      Video + Audio, then Video Only, then Audio Only, with non-increasing
      size within one kind. */
  lemma SortedMeansKindThenSize(s: seq<ClientFormat>)
    requires Sorted(s)
    ensures forall i, j :: 0 <= i < j < |s| ==> Priority(s[i].kind) >= Priority(s[j].kind)
    ensures forall i, j :: 0 <= i < j < |s| && s[j].kind == VideoAndAudio ==> s[i].kind == VideoAndAudio
    ensures forall i, j :: 0 <= i < j < |s| && s[i].kind == AudioOnly ==> s[j].kind == AudioOnly
    ensures forall i, j :: 0 <= i < j < |s| && s[i].kind == s[j].kind ==> s[i].filesize >= s[j].filesize
  {
  }

  /** Every ranked entry has an identifier and is the normalisation of
      some raw entry. */
  lemma RankedEntryOrigin(raw: seq<RawFormat>, i: nat)
    requires i < |RankFormats(raw)|
    ensures Truthy(RankFormats(raw)[i].formatId)
    ensures exists j :: 0 <= j < |raw| && RankFormats(raw)[i] == Normalise(raw[j])
  {
    var mapped := NormaliseAll(raw);
    var kept := KeepIdentified(mapped);
    var full := SortFormats(kept);
    var x := RankFormats(raw)[i];
    assert x == full[i] && x in multiset(full);
    SortFormatsPermutation(kept);
    KeepIdentifiedCounts(mapped, x);
    assert x in mapped;
    var j :| 0 <= j < |mapped| && mapped[j] == x;
  }

  /** What the `/api/fetch` response promises about its `formats` list. */
  lemma RankFormatsSpec(raw: seq<RawFormat>)
    ensures var r, full, kept := RankFormats(raw), FullRanking(raw), KeepIdentified(NormaliseAll(raw));
      && |r| <= MaxFormats
      && r <= full
      && |r| == (if |kept| < MaxFormats then |kept| else MaxFormats)
      && Sorted(full)
      && StableArrangement(kept, full)
      && (forall k :: Select(full, k) == KeepIdentified(Select(NormaliseAll(raw), k)))
      && multiset(full) == multiset(kept)
      && (forall x: ClientFormat :: multiset(full)[x] == if Truthy(x.formatId) then multiset(NormaliseAll(raw))[x] else 0)
      && (forall i :: 0 <= i < |r| ==> Truthy(r[i].formatId))
      && (forall i :: 0 <= i < |r| ==> exists j :: 0 <= j < |raw| && r[i] == Normalise(raw[j]))
      && (forall i, j :: 0 <= i < j < |r| ==> Priority(r[i].kind) >= Priority(r[j].kind))
      && (forall i, j :: 0 <= i < j < |r| && r[i].kind == r[j].kind ==> r[i].filesize >= r[j].filesize)
  {
    var mapped := NormaliseAll(raw);
    var kept := KeepIdentified(mapped);
    var full := SortFormats(kept);
    var r := Cap(full);
    SortFormatsSorted(kept);
    SortFormatsStable(kept);
    SortFormatsPermutation(kept);
    forall k ensures Select(full, k) == KeepIdentified(Select(mapped, k)) {
      KeepIdentifiedSelect(mapped, k);
    }
    forall x: ClientFormat ensures multiset(full)[x] == if Truthy(x.formatId) then multiset(mapped)[x] else 0 {
      KeepIdentifiedCounts(mapped, x);
    }
    forall i | 0 <= i < |r|
      ensures Truthy(r[i].formatId)
      ensures exists j :: 0 <= j < |raw| && r[i] == Normalise(raw[j])
    {
      RankedEntryOrigin(raw, i);
    }
    assert Sorted(r);
    SortedMeansKindThenSize(r);
  }

  /** Builds a raw entry with only an identifier, codecs and a size. */
  function Sample(id: string, vcodec: string, acodec: string, size: nat): RawFormat {
    RawFormat(Some(id), None, Some(vcodec), Some(acodec), None, None, Some(size), None, None, None)
  }

  /** The worked scenario: a VP9 video-only stream, an Opus audio-only stream,
      a combined stream and an entry without identifier rank as
      combined, video-only, audio-only, with the anonymous entry gone. */
  lemma RankingScenario()
    ensures var a, b, c, d :=
              Sample("a", "vp9", "none", 500), Sample("b", "none", "opus", 100),
              Sample("c", "vp9", "opus", 900), Sample("", "vp9", "opus", 50);
            RankFormats([a, b, c, d]) == [Normalise(c), Normalise(a), Normalise(b)]
  {
    var a, b, c, d :=
      Sample("a", "vp9", "none", 500), Sample("b", "none", "opus", 100),
      Sample("c", "vp9", "opus", 900), Sample("", "vp9", "opus", 50);
    var na, nb, nc, nd := Normalise(a), Normalise(b), Normalise(c), Normalise(d);
    assert NormaliseAll([a, b, c, d]) == [na, nb, nc, nd];
    assert KeepIdentified([nd]) == [];
    assert KeepIdentified([nc, nd]) == [nc];
    assert KeepIdentified([nb, nc, nd]) == [nb, nc];
    assert KeepIdentified([na, nb, nc, nd]) == [na, nb, nc];
    assert SortFormats([nc]) == [nc];
    assert Insert(nb, [nc]) == [nc, nb];
    assert SortFormats([nb, nc]) == [nc, nb];
    assert Insert(na, [nb]) == [na, nb];
    assert Insert(na, [nc, nb]) == [nc, na, nb];
  }
}
