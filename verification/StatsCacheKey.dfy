/** The stats cache key: what the filters select, how they are read from a request, and why two
    requests with one key select the same movies (internal/server/stats_filters.go and
    internal/server/stats_handlers.go). */
module StatsCacheKey {
  import opened Domain

  // ---- Numbers as text --------------------------------------------------------------------

  const DIGITS := "0123456789"

  predicate IsDigit(c: char) {
    '0' <= c <= '9'
  }

  function DigitOf(c: char): nat
    requires IsDigit(c)
  {
    c as int - '0' as int
  }

  /** strconv.Itoa on what ids and years are. */
  function Itoa(n: nat): (s: string)
    ensures s != "" && forall k :: 0 <= k < |s| ==> IsDigit(s[k])
    decreases n
  {
    if n < 10 then [DIGITS[n]] else Itoa(n / 10) + [DIGITS[n % 10]]
  }

  predicate AllDigits(s: string) {
    forall k :: 0 <= k < |s| ==> IsDigit(s[k])
  }

  function Value(s: string): nat
    requires AllDigits(s)
    decreases |s|
  {
    if s == "" then 0 else Value(s[..|s| - 1]) * 10 + DigitOf(s[|s| - 1])
  }

  lemma {:induction false} ItoaValue(n: nat)
    ensures Value(Itoa(n)) == n
    decreases n
  {
    if n >= 10 {
      ItoaValue(n / 10);
      assert Itoa(n)[..|Itoa(n)| - 1] == Itoa(n / 10);
    } else {
      assert Itoa(n)[..0] == "";
    }
  }

  const MAX_INT := 0x7FFF_FFFF_FFFF_FFFF

  /** strconv.Atoi: an optional sign and digits, within 64 bits. */
  function Atoi(s: string): Option<int> {
    var signed := s != "" && (s[0] == '+' || s[0] == '-');
    var digits := if signed then s[1..] else s;
    if digits == "" || !AllDigits(digits) then None
    else
      var magnitude: int := Value(digits);
      var v := if s[0] == '-' then -magnitude else magnitude;
      if -MAX_INT - 1 <= v <= MAX_INT then Some(v) else None
  }

  predicate IsSpace(c: char) {
    c == ' ' || '\t' <= c <= '\r'
  }

  function TrimLeft(s: string): string {
    if s != "" && IsSpace(s[0]) then TrimLeft(s[1..]) else s
  }

  function TrimRight(s: string): string
    decreases |s|
  {
    if s != "" && IsSpace(s[|s| - 1]) then TrimRight(s[..|s| - 1]) else s
  }

  /** strings.TrimSpace. */
  function TrimSpace(s: string): string {
    TrimRight(TrimLeft(s))
  }

  lemma NothingToTrim(s: string)
    requires s == "" || (!IsSpace(s[0]) && !IsSpace(s[|s| - 1]))
    ensures TrimSpace(s) == s
  {
  }

  // ---- Id lists -----------------------------------------------------------------------------

  /** strings.Split(s, ","). */
  function Split(s: string): (parts: seq<string>)
    ensures parts != []
  {
    if s == "" then [""]
    else if s[0] == ',' then [""] + Split(s[1..])
    else
      var rest := Split(s[1..]);
      [[s[0]] + rest[0]] + rest[1..]
  }

  /** Strictly increasing positive ids: sorted and without repeats. */
  predicate Canonical(ids: seq<nat>) {
    && (forall k :: 0 <= k < |ids| ==> ids[k] > 0)
    && (forall i, j :: 0 <= i < j < |ids| ==> ids[i] < ids[j])
  }

  /** Where slices.Sort and slices.Compact put one more id. */
  function Place(ids: seq<nat>, id: nat): seq<nat> {
    if ids == [] then [id]
    else if id < ids[0] then [id] + ids
    else if id == ids[0] then ids
    else [ids[0]] + Place(ids[1..], id)
  }

  /** slices.Compact after slices.Sort. */
  function Canon(ids: seq<nat>): seq<nat>
    decreases |ids|
  {
    if ids == [] then [] else Place(Canon(ids[..|ids| - 1]), ids[|ids| - 1])
  }

  lemma {:induction false} PlaceMembers(ids: seq<nat>, id: nat, x: nat)
    ensures x in Place(ids, id) <==> x in ids || x == id
    decreases |ids|
  {
    if ids != [] {
      PlaceMembers(ids[1..], id, x);
      assert ids == [ids[0]] + ids[1..];
    }
  }

  lemma HeadFirst(id: nat, ids: seq<nat>)
    requires id > 0 && Canonical(ids) && forall x :: x in ids ==> id < x
    ensures Canonical([id] + ids)
  {
    assert forall k :: 0 <= k < |ids| ==> ids[k] in ids;
  }

  lemma {:induction false} PlaceKeeps(ids: seq<nat>, id: nat)
    requires Canonical(ids) && id > 0
    ensures Canonical(Place(ids, id))
    ensures forall x :: x in Place(ids, id) <==> x in ids || x == id
    decreases |ids|
  {
    forall x ensures x in Place(ids, id) <==> x in ids || x == id {
      PlaceMembers(ids, id, x);
    }
    if ids != [] && id > ids[0] {
      PlaceKeeps(ids[1..], id);
      HeadFirst(ids[0], Place(ids[1..], id));
    } else if ids != [] && id < ids[0] {
      HeadFirst(id, ids);
    }
  }

  /** Sorting and compacting keeps the ids and leaves a canonical list. */
  lemma {:induction false} CanonKeeps(ids: seq<nat>)
    requires forall k :: 0 <= k < |ids| ==> ids[k] > 0
    ensures Canonical(Canon(ids)) && forall x :: x in Canon(ids) <==> x in ids
    decreases |ids|
  {
    if ids != [] {
      var init := ids[..|ids| - 1];
      CanonKeeps(init);
      PlaceKeeps(Canon(init), ids[|ids| - 1]);
      assert ids == init + [ids[|ids| - 1]];
    }
  }

  lemma {:induction false} PlaceLast(ids: seq<nat>, id: nat)
    requires Canonical(ids + [id])
    ensures Place(ids, id) == ids + [id]
    decreases |ids|
  {
    if ids != [] {
      assert (ids + [id])[0] == ids[0] && (ids + [id])[|ids|] == id;
      assert (ids + [id])[1..] == ids[1..] + [id];
      PlaceLast(ids[1..], id);
    }
  }

  lemma {:induction false} CanonOfCanonical(ids: seq<nat>)
    requires Canonical(ids)
    ensures Canon(ids) == ids
    decreases |ids|
  {
    if ids != [] {
      var init := ids[..|ids| - 1];
      CanonOfCanonical(init);
      assert ids == init + [ids[|ids| - 1]];
      PlaceLast(init, ids[|ids| - 1]);
    }
  }

  const MAX_IDS := 25

  /** The id a part names, if it names one. */
  function PartId(part: string): Option<nat> {
    var v := Atoi(TrimSpace(part));
    if v.Some? && v.value > 0 then Some(v.value) else None
  }

  function PartIds(parts: seq<string>): Option<seq<nat>>
    decreases |parts|
  {
    if parts == [] then Some([])
    else
      var init := PartIds(parts[..|parts| - 1]);
      var last := PartId(parts[|parts| - 1]);
      if init.Some? && last.Some? then Some(init.value + [last.value]) else None
  }

  /** parseIDList as a function. */
  function ParsedIds(raw: string): Result<seq<nat>> {
    var trimmed := TrimSpace(raw);
    if trimmed == "" then Ok([])
    else if |Split(trimmed)| > MAX_IDS then Err(InvalidInput)
    else
      match PartIds(Split(trimmed))
      case None => Err(InvalidInput)
      case Some(ids) => Ok(Canon(ids))
  }

  /** parseIDList. */
  method ParseIdList(raw: string) returns (r: Result<seq<nat>>)
    ensures r == ParsedIds(raw)
  {
    var trimmed := TrimSpace(raw);
    if trimmed == "" {
      return Ok([]);
    }
    var parts := Split(trimmed);
    if |parts| > MAX_IDS {
      return Err(InvalidInput);
    }
    var ids: seq<nat> := [];
    var i := 0;
    while i < |parts|
      invariant 0 <= i <= |parts|
      invariant PartIds(parts[..i]) == Some(ids)
    {
      ReadsOneMore(parts, i);
      var v := Atoi(TrimSpace(parts[i]));
      if v.None? || v.value <= 0 {
        FailsForGood(parts, i + 1);
        return Err(InvalidInput);
      }
      ids := ids + [v.value];
      i := i + 1;
    }
    assert parts[..i] == parts;
    return Ok(Canon(ids));
  }

  lemma ReadsOneMore(parts: seq<string>, i: nat)
    requires i < |parts|
    ensures PartIds(parts[..i + 1]) ==
      if PartIds(parts[..i]).None? || PartId(parts[i]).None? then None
      else Some(PartIds(parts[..i]).value + [PartId(parts[i]).value])
  {
    assert parts[..i + 1][..i] == parts[..i];
  }

  lemma {:induction false} FailsForGood(parts: seq<string>, i: nat)
    requires i <= |parts| && PartIds(parts[..i]) == None
    ensures PartIds(parts) == None
    decreases |parts| - i
  {
    if i < |parts| {
      ReadsOneMore(parts, i);
      FailsForGood(parts, i + 1);
    } else {
      assert parts[..i] == parts;
    }
  }

  lemma {:induction false} PartIdsArePositive(parts: seq<string>)
    requires PartIds(parts).Some?
    ensures |PartIds(parts).value| == |parts|
    ensures forall k :: 0 <= k < |parts| ==> PartIds(parts).value[k] > 0 && PartId(parts[k]) == Some(PartIds(parts).value[k])
    decreases |parts|
  {
    if parts != [] {
      PartIdsArePositive(parts[..|parts| - 1]);
    }
  }

  /** Reading a list answers a canonical one with exactly the ids the request named. */
  lemma ParsedIsCanonical(raw: string, x: nat)
    requires ParsedIds(raw).Ok?
    ensures Canonical(ParsedIds(raw).value) && |ParsedIds(raw).value| <= |Split(TrimSpace(raw))|
    ensures x in ParsedIds(raw).value <==>
      TrimSpace(raw) != "" && exists k :: 0 <= k < |Split(TrimSpace(raw))| && PartId(Split(TrimSpace(raw))[k]) == Some(x)
  {
    if TrimSpace(raw) != "" {
      var parts := Split(TrimSpace(raw));
      var ids := PartIds(parts).value;
      PartIdsArePositive(parts);
      CanonKeeps(ids);
      CanonSize(ids);
      if x in ids {
        var k :| 0 <= k < |ids| && ids[k] == x;
        assert PartId(parts[k]) == Some(x);
      }
    }
  }

  lemma {:induction false} CanonSize(ids: seq<nat>)
    ensures |Canon(ids)| <= |ids|
    decreases |ids|
  {
    if ids != [] {
      CanonSize(ids[..|ids| - 1]);
      PlaceSize(Canon(ids[..|ids| - 1]), ids[|ids| - 1]);
    }
  }

  lemma {:induction false} PlaceSize(ids: seq<nat>, id: nat)
    ensures |Place(ids, id)| <= |ids| + 1
    decreases |ids|
  {
    if ids != [] {
      PlaceSize(ids[1..], id);
    }
  }

  // ---- Joining ----------------------------------------------------------------------------------

  function JoinedIds(ids: seq<nat>): string
    decreases |ids|
  {
    if ids == [] then "" else if |ids| == 1 then Itoa(ids[0]) else Itoa(ids[0]) + "," + JoinedIds(ids[1..])
  }

  function Parts(ids: seq<nat>): seq<string> {
    seq(|ids|, k requires 0 <= k < |ids| => Itoa(ids[k]))
  }

  function Join(parts: seq<string>): string {
    if parts == [] then "" else if |parts| == 1 then parts[0] else parts[0] + "," + Join(parts[1..])
  }

  /** joinIDs: one text for each id, joined by commas. */
  method JoinIds(ids: seq<nat>) returns (s: string)
    ensures s == JoinedIds(ids)
  {
    if |ids| == 0 {
      return "";
    }
    var parts := seq(|ids|, _ => "");
    var i := 0;
    while i < |ids|
      invariant 0 <= i <= |ids| && |parts| == |ids|
      invariant forall k :: 0 <= k < i ==> parts[k] == Itoa(ids[k])
    {
      parts := parts[i := Itoa(ids[i])];
      i := i + 1;
    }
    assert parts == Parts(ids);
    JoinOfParts(ids);
    return Join(parts);
  }

  lemma {:induction false} JoinOfParts(ids: seq<nat>)
    ensures Join(Parts(ids)) == JoinedIds(ids)
    decreases |ids|
  {
    if |ids| > 1 {
      assert Parts(ids)[1..] == Parts(ids[1..]);
      JoinOfParts(ids[1..]);
    }
  }

  lemma {:induction false} SplitPart(part: string, rest: string)
    requires forall k :: 0 <= k < |part| ==> part[k] != ','
    ensures Split(part + "," + rest) == [part] + Split(rest)
    ensures Split(part) == [part]
    decreases |part|
  {
    if part == "" {
      assert part + "," + rest == "," + rest;
      assert ("," + rest)[1..] == rest;
    } else {
      SplitPart(part[1..], rest);
      assert (part + "," + rest)[1..] == part[1..] + "," + rest;
      assert [part[0]] + part[1..] == part;
    }
  }

  lemma PartsFirst(ids: seq<nat>)
    requires ids != []
    ensures Parts(ids) == [Itoa(ids[0])] + Parts(ids[1..])
  {
  }

  lemma JoinedFirst(ids: seq<nat>)
    requires |ids| > 1
    ensures JoinedIds(ids) == Itoa(ids[0]) + "," + JoinedIds(ids[1..])
  {
  }

  /** One id splits off the front of a joined list. */
  lemma SplitFirst(ids: seq<nat>)
    requires |ids| > 1
    ensures Split(JoinedIds(ids)) == [Itoa(ids[0])] + Split(JoinedIds(ids[1..]))
  {
    JoinedFirst(ids);
    SplitPart(Itoa(ids[0]), JoinedIds(ids[1..]));
  }

  lemma SplitOne(ids: seq<nat>)
    requires |ids| == 1
    ensures Split(JoinedIds(ids)) == Parts(ids)
  {
    SplitPart(Itoa(ids[0]), "");
    PartsFirst(ids);
  }

  lemma {:induction false} SplitInvertsJoin(ids: seq<nat>)
    requires ids != []
    ensures Split(JoinedIds(ids)) == Parts(ids)
    decreases |ids|
  {
    if |ids| == 1 {
      SplitOne(ids);
    } else {
      SplitFirst(ids);
      PartsFirst(ids);
      SplitInvertsJoin(ids[1..]);
    }
  }

  /** Joined lists differ when the lists do. */
  lemma JoinIsInjective(a: seq<nat>, b: seq<nat>)
    requires JoinedIds(a) == JoinedIds(b)
    ensures a == b
  {
    JoinNonEmpty(a);
    JoinNonEmpty(b);
    if a != [] && b != [] {
      SplitInvertsJoin(a);
      SplitInvertsJoin(b);
      assert |a| == |Parts(a)| == |Parts(b)| == |b|;
      forall k | 0 <= k < |a| ensures a[k] == b[k] {
        ItoaValue(a[k]);
        ItoaValue(b[k]);
        assert Parts(a)[k] == Parts(b)[k];
      }
    }
  }

  lemma JoinNonEmpty(ids: seq<nat>)
    ensures JoinedIds(ids) == "" <==> ids == []
    ensures ids != [] ==> !IsSpace(JoinedIds(ids)[0]) && !IsSpace(JoinedIds(ids)[|JoinedIds(ids)| - 1])
    decreases |ids|
  {
    if |ids| > 1 {
      JoinNonEmpty(ids[1..]);
    }
  }

  lemma PartIdOfItoa(id: nat)
    requires 0 < id <= MAX_INT
    ensures PartId(Itoa(id)) == Some(id)
  {
    ItoaValue(id);
    NothingToTrim(Itoa(id));
  }

  /** Parts that name these ids read as them. */
  lemma {:induction false} PartsRead(parts: seq<string>, ids: seq<nat>)
    requires |parts| == |ids| && forall k :: 0 <= k < |ids| ==> PartId(parts[k]) == Some(ids[k])
    ensures PartIds(parts) == Some(ids)
    decreases |ids|
  {
    if ids != [] {
      var n := |ids| - 1;
      PartsRead(parts[..n], ids[..n]);
      assert PartId(parts[n]) == Some(ids[n]);
      assert ids[..n] + [ids[n]] == ids;
    }
  }

  lemma PartIdsOfParts(ids: seq<nat>)
    requires forall k :: 0 <= k < |ids| ==> 0 < ids[k] <= MAX_INT
    ensures PartIds(Parts(ids)) == Some(ids)
  {
    var parts := Parts(ids);
    forall k | 0 <= k < |ids| ensures PartId(parts[k]) == Some(ids[k]) {
      PartIdOfItoa(ids[k]);
    }
    PartsRead(parts, ids);
  }

  /** Reading inverts joining on canonical lists a request can carry. */
  lemma ParseInvertsJoin(ids: seq<nat>)
    requires Canonical(ids) && |ids| <= MAX_IDS && forall k :: 0 <= k < |ids| ==> ids[k] <= MAX_INT
    ensures ParsedIds(JoinedIds(ids)) == Ok(ids)
  {
    JoinNonEmpty(ids);
    NothingToTrim(JoinedIds(ids));
    if ids != [] {
      SplitInvertsJoin(ids);
      PartIdsOfParts(ids);
      CanonOfCanonical(ids);
    }
  }

  /** slices.BinarySearch on a canonical list agrees with plain membership. */
  method BinarySearch(ids: seq<nat>, id: nat) returns (found: bool)
    requires Canonical(ids)
    ensures found <==> id in ids
  {
    var low, high := 0, |ids|;
    while low < high
      invariant 0 <= low <= high <= |ids|
      invariant forall k :: 0 <= k < low ==> ids[k] < id
      invariant forall k :: high <= k < |ids| ==> ids[k] >= id
    {
      var mid := (low + high) / 2;
      if ids[mid] < id {
        low := mid + 1;
      } else {
        high := mid;
      }
    }
    return low < |ids| && ids[low] == id;
  }

  // ---- The key -------------------------------------------------------------------------------------

  datatype Filters = Filters(
    genre: string, actors: seq<nat>, crew: seq<nat>, releaseYear: nat, releaseDecade: nat, addedBy: seq<nat>)

  /** What a stats request asks for; start and end are empty without a custom range. */
  datatype Query = Query(window: string, timezone: string, start: string, end: string, filters: Filters)

  predicate PipeFree(s: string) {
    forall k :: 0 <= k < |s| ==> s[k] != '|'
  }

  /** Windows, zones and dates contain no separator; a genre may. */
  predicate WellFormed(q: Query) {
    PipeFree(q.window) && PipeFree(q.timezone) && PipeFree(q.start) && PipeFree(q.end)
  }

  type Fold = string -> string

  /** Case folding empties no genre. */
  ghost predicate FoldOk(fold: Fold) {
    forall s :: fold(s) == "" <==> s == ""
  }

  /** Two fields and the separator. */
  function Piped(a: string, b: string): string {
    a + "|" + b
  }

  function KeySegment(fold: Fold, f: Filters): string {
    Piped(Piped(Piped(Piped(Piped(fold(f.genre), JoinedIds(f.actors)), JoinedIds(f.crew)),
          Itoa(f.releaseYear)), Itoa(f.releaseDecade)), JoinedIds(f.addedBy))
  }

  /** buildStatsCacheKey. */
  function Key(fold: Fold, q: Query): string {
    Piped(q.window, Piped(q.timezone, Piped(q.start, Piped(q.end, KeySegment(fold, q.filters)))))
  }

  lemma Ends(a: string, x: string)
    ensures Piped(a, x)[0] == if a == "" then '|' else a[0]
    ensures Piped(a, x)[|a| + |x|] == if x == "" then '|' else x[|x| - 1]
    ensures Piped(a, x)[1..] == if a == "" then x else Piped(a[1..], x)
    ensures Piped(a, x)[..|a| + |x|] == if x == "" then a else Piped(a, x[..|x| - 1])
  {
  }

  lemma {:induction false} FirstField(a: string, x: string, b: string, y: string)
    requires PipeFree(a) && PipeFree(b) && Piped(a, x) == Piped(b, y)
    ensures a == b && x == y
    decreases |a|
  {
    Ends(a, x);
    Ends(b, y);
    if a != "" && b != "" {
      FirstField(a[1..], x, b[1..], y);
      assert a == [a[0]] + a[1..] && b == [b[0]] + b[1..];
    }
  }

  lemma {:induction false} LastField(x: string, a: string, y: string, b: string)
    requires PipeFree(a) && PipeFree(b) && Piped(x, a) == Piped(y, b)
    ensures x == y && a == b
    decreases |a|
  {
    Ends(x, a);
    Ends(y, b);
    assert |x| + |a| == |y| + |b| by {
      assert |Piped(x, a)| == |Piped(y, b)|;
    }
    if a != "" && b != "" {
      LastField(x, a[..|a| - 1], y, b[..|b| - 1]);
      assert a == a[..|a| - 1] + [a[|a| - 1]] && b == b[..|b| - 1] + [b[|b| - 1]];
    }
  }

  lemma {:induction false} JoinIsPipeFree(ids: seq<nat>)
    ensures PipeFree(JoinedIds(ids))
    decreases |ids|
  {
    if |ids| > 1 {
      JoinIsPipeFree(ids[1..]);
    }
  }

  lemma ItoaIsInjective(a: nat, b: nat)
    requires Itoa(a) == Itoa(b)
    ensures a == b
  {
    ItoaValue(a);
    ItoaValue(b);
  }

  lemma SegmentsAgree(fold: Fold, f: Filters, g: Filters)
    requires KeySegment(fold, f) == KeySegment(fold, g)
    ensures fold(f.genre) == fold(g.genre) && f.(genre := g.genre) == g
  {
    JoinIsPipeFree(f.addedBy);
    JoinIsPipeFree(g.addedBy);
    JoinIsPipeFree(f.crew);
    JoinIsPipeFree(g.crew);
    JoinIsPipeFree(f.actors);
    JoinIsPipeFree(g.actors);
    var f1, g1 := Piped(fold(f.genre), JoinedIds(f.actors)), Piped(fold(g.genre), JoinedIds(g.actors));
    var f2, g2 := Piped(f1, JoinedIds(f.crew)), Piped(g1, JoinedIds(g.crew));
    var f3, g3 := Piped(f2, Itoa(f.releaseYear)), Piped(g2, Itoa(g.releaseYear));
    var f4, g4 := Piped(f3, Itoa(f.releaseDecade)), Piped(g3, Itoa(g.releaseDecade));
    LastField(f4, JoinedIds(f.addedBy), g4, JoinedIds(g.addedBy));
    LastField(f3, Itoa(f.releaseDecade), g3, Itoa(g.releaseDecade));
    LastField(f2, Itoa(f.releaseYear), g2, Itoa(g.releaseYear));
    LastField(f1, JoinedIds(f.crew), g1, JoinedIds(g.crew));
    LastField(fold(f.genre), JoinedIds(f.actors), fold(g.genre), JoinedIds(g.actors));
    JoinIsInjective(f.addedBy, g.addedBy);
    JoinIsInjective(f.crew, g.crew);
    JoinIsInjective(f.actors, g.actors);
    ItoaIsInjective(f.releaseYear, g.releaseYear);
    ItoaIsInjective(f.releaseDecade, g.releaseDecade);
  }

  /** One key, one request up to the case of the genre, though a genre may contain the
      separator. */
  lemma EqualKeysAgree(fold: Fold, p: Query, q: Query)
    requires WellFormed(p) && WellFormed(q) && Key(fold, p) == Key(fold, q)
    ensures p.window == q.window && p.timezone == q.timezone && p.start == q.start && p.end == q.end
    ensures fold(p.filters.genre) == fold(q.filters.genre) && p.filters.(genre := q.filters.genre) == q.filters
  {
    var p4, q4 := KeySegment(fold, p.filters), KeySegment(fold, q.filters);
    var p3, q3 := Piped(p.end, p4), Piped(q.end, q4);
    var p2, q2 := Piped(p.start, p3), Piped(q.start, q3);
    var p1, q1 := Piped(p.timezone, p2), Piped(q.timezone, q2);
    FirstField(p.window, p1, q.window, q1);
    FirstField(p.timezone, p2, q.timezone, q2);
    FirstField(p.start, p3, q.start, q3);
    FirstField(p.end, p4, q.end, q4);
    SegmentsAgree(fold, p.filters, q.filters);
  }

  // ---- What the filters select -----------------------------------------------------------------------

  datatype CreditKind = Cast | Crew

  datatype Credit = Credit(kind: CreditKind, person: nat)

  datatype Metadata = Metadata(genres: seq<string>, releaseYear: nat)

  predicate HasPerson(credits: seq<Credit>, kind: CreditKind, ids: seq<nat>) {
    exists k :: 0 <= k < |credits| && credits[k].kind == kind && credits[k].person in ids
  }

  /** creditsContainPerson: a scan of the credits with a binary search in each. */
  method CreditsContainPerson(credits: seq<Credit>, kind: CreditKind, ids: seq<nat>) returns (found: bool)
    requires Canonical(ids)
    ensures found <==> HasPerson(credits, kind, ids)
  {
    var i := 0;
    while i < |credits|
      invariant 0 <= i <= |credits|
      invariant forall k :: 0 <= k < i ==> !(credits[k].kind == kind && credits[k].person in ids)
    {
      if credits[i].kind == kind {
        var hit := BinarySearch(ids, credits[i].person);
        if hit {
          return true;
        }
      }
      i := i + 1;
    }
    return false;
  }

  /** matches: unenriched movies fail every active filter. */
  predicate Matches(fold: Fold, f: Filters, metadata: Option<Metadata>, credits: seq<Credit>) {
    var year := if metadata.Some? then metadata.value.releaseYear else 0;
    && (f.genre != "" ==> metadata.Some?)
    && (f.genre != "" ==>
          exists k :: 0 <= k < |metadata.value.genres| && fold(metadata.value.genres[k]) == fold(f.genre))
    && (f.releaseYear != 0 ==> year == f.releaseYear)
    && (f.releaseDecade != 0 ==> f.releaseDecade <= year < f.releaseDecade + 10)
    && (f.actors != [] ==> HasPerson(credits, Cast, f.actors))
    && (f.crew != [] ==> HasPerson(credits, Crew, f.crew))
  }

  /** Cache key soundness: two requests with one key have the same window, zone, dates and
      members, and select the same movies, whatever their metadata and credits. */
  lemma EqualKeysSelectAlike(fold: Fold, p: Query, q: Query, metadata: Option<Metadata>, credits: seq<Credit>)
    requires FoldOk(fold) && WellFormed(p) && WellFormed(q) && Key(fold, p) == Key(fold, q)
    ensures Matches(fold, p.filters, metadata, credits) == Matches(fold, q.filters, metadata, credits)
    ensures (p.window, p.timezone, p.start, p.end, p.filters.addedBy) ==
            (q.window, q.timezone, q.start, q.end, q.filters.addedBy)
  {
    EqualKeysAgree(fold, p, q);
  }

  // ---- The cache ----------------------------------------------------------------------------------------

  const MAX_ENTRIES := 256

  datatype Cached<T> = Cached(response: T, expiresAt: int)

  class Cache<T> {
    var entries: map<string, Cached<T>>

    constructor ()
      ensures entries == map[]
    {
      entries := map[];
    }

    /** getCachedStats: an expired entry is dropped. */
    method Get(key: string, now: int) returns (hit: Option<T>)
      modifies this
      ensures hit.Some? <==> key in old(entries) && now <= old(entries)[key].expiresAt
      ensures hit.Some? ==> hit.value == old(entries)[key].response && entries == old(entries)
      ensures hit.None? ==> entries == old(entries) - {key}
    {
      if key !in entries {
        assert entries - {key} == entries;
        return None;
      }
      if now > entries[key].expiresAt {
        entries := entries - {key};
        return None;
      }
      return Some(entries[key].response);
    }

    /** setCachedStats: a full cache is emptied first. */
    method Set(key: string, response: T, now: int, ttl: int)
      requires |entries| <= MAX_ENTRIES
      modifies this
      ensures |entries| <= MAX_ENTRIES
      ensures entries == (if |old(entries)| >= MAX_ENTRIES then map[] else old(entries))[key := Cached(response, now + ttl)]
    {
      if |entries| >= MAX_ENTRIES {
        entries := map[];
      }
      ghost var before := entries;
      entries := entries[key := Cached(response, now + ttl)];
      assert entries.Keys == before.Keys + {key};
    }

    method Invalidate()
      modifies this
      ensures entries == map[]
    {
      entries := map[];
    }
  }
}
