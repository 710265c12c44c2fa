/** Finding IIO devices in the devices directory: `findIIODeviceByName`, which picks the
    device the operator named, and `findFirstIIODeviceWith`, which picks the first device,
    by sorted name, offering the requested sensors. */
module Discovery {
  import opened Wrappers
  import opened Text
  import opened Sysfs

  datatype LookupError =
    | ReadDirFailed                                // the devices directory cannot be read
    | NotFound(name: string)                       // no device matches the (trimmed) name
    | NothingRequested                             // neither gyroscope nor accelerometer asked for
    | NoMatch(wantGyro: bool, wantAccel: bool)     // no device offers the requested sensors

  /** The three ways a device can answer a name query, in decreasing priority. */
  datatype Rule = Exact | Partial | Motion

  /** The query as it is compared: trimmed and lower-cased. */
  function Key(query: string): string {
    ToLower(TrimSpace(query))
  }

  /** Entry `e` is an IIO device that matches the lower-cased query `q` by `rule`. An empty
      query matches no name. */
  predicate Matches(fs: Tree, e: Entry, q: string, rule: Rule) {
    IsIIODevice(e) &&
    match rule
    case Exact => q != "" && DeviceName(fs, e) == q
    case Partial => q != "" && (Contains(DeviceName(fs, e), q) || Contains(q, DeviceName(fs, e)))
    case Motion => HasGyro(fs, e) || HasAccel(fs, e)
  }

  /** The rule as a test on entries. */
  function MatchOf(fs: Tree, q: string, rule: Rule): Entry -> bool {
    e => Matches(fs, e, q, rule)
  }

  /** The index of the first entry passing `p`, if any. */
  function FirstIndex(es: seq<Entry>, p: Entry -> bool): (r: Option<nat>)
    ensures r.Some? ==> r.value < |es| && p(es[r.value])
    ensures r.Some? ==> forall j :: 0 <= j < r.value ==> !p(es[j])
    ensures r.None? ==> forall j :: 0 <= j < |es| ==> !p(es[j])
    decreases |es|
  {
    if es == [] then None
    else match FirstIndex(es[..|es| - 1], p)
      case Some(k) => Some(k)
      case None => if p(es[|es| - 1]) then Some(|es| - 1) else None
  }

  /** The index of the last entry passing `p`, if any. */
  function LastIndex(es: seq<Entry>, p: Entry -> bool): (r: Option<nat>)
    ensures r.Some? ==> r.value < |es| && p(es[r.value])
    ensures r.Some? ==> forall j :: r.value < j < |es| ==> !p(es[j])
    ensures r.None? ==> forall j :: 0 <= j < |es| ==> !p(es[j])
    decreases |es|
  {
    if es == [] then None
    else if p(es[|es| - 1]) then Some(|es| - 1)
    else LastIndex(es[..|es| - 1], p)
  }

  /** Once a prefix has a first passing entry, so has the whole list, at the same index. */
  lemma {:induction false} FirstIndexOfPrefix(es: seq<Entry>, n: nat, p: Entry -> bool)
    requires n <= |es| && FirstIndex(es[..n], p).Some?
    ensures FirstIndex(es, p) == FirstIndex(es[..n], p)
    decreases |es|
  {
    if n < |es| {
      var init := es[..|es| - 1];
      assert init[..n] == es[..n];
      FirstIndexOfPrefix(init, n, p);
    } else {
      assert es[..n] == es;
    }
  }

  lemma FirstIndexStep(es: seq<Entry>, i: nat, p: Entry -> bool)
    requires i < |es|
    ensures FirstIndex(es[..i + 1], p)
      == if FirstIndex(es[..i], p).Some? then FirstIndex(es[..i], p)
         else if p(es[i]) then Some(i) else None
  {
    assert es[..i + 1][..i] == es[..i];
  }

  lemma LastIndexStep(es: seq<Entry>, i: nat, p: Entry -> bool)
    requires i < |es|
    ensures LastIndex(es[..i + 1], p) == if p(es[i]) then Some(i) else LastIndex(es[..i], p)
  {
    assert es[..i + 1][..i] == es[..i];
  }

  /** The path of the entry at index `k`, if there is one. */
  function PathAt(es: seq<Entry>, k: Option<nat>): Option<string>
    requires k.Some? ==> k.value < |es|
  {
    match k
    case Some(i) => Some(DevicePath(es[i].node))
    case None => None
  }

  /** What `findIIODeviceByName` remembers while it scans: the last exact match, the
      first partial match and the first device with a motion channel. */
  datatype Picks = Picks(exact: Option<string>, partial: Option<string>, firstWithIMU: Option<string>)

  /** The picks for the listing `es` and the lower-cased query `q`. */
  function PicksOf(fs: Tree, es: seq<Entry>, q: string): Picks {
    Picks(PathAt(es, LastIndex(es, MatchOf(fs, q, Exact))),
          PathAt(es, FirstIndex(es, MatchOf(fs, q, Partial))),
          PathAt(es, FirstIndex(es, MatchOf(fs, q, Motion))))
  }

  /** The device `findIIODeviceByName` picks from the listing `es`: the last exact match,
      else the first partial match, else the first device with a motion channel. It fails
      exactly when no IIO device matches partially (an exact match is also a partial one) and
      none has a motion channel. */
  function ByName(fs: Tree, es: seq<Entry>, query: string): (r: Result<string, LookupError>)
    ensures r.Err? <==> forall j :: 0 <= j < |es| ==>
      !Matches(fs, es[j], Key(query), Partial) && !Matches(fs, es[j], Key(query), Motion)
    ensures r.Err? ==> r.error == NotFound(TrimSpace(query))
    ensures r.Ok? ==> exists k :: 0 <= k < |es| && IsIIODevice(es[k]) && r.value == DevicePath(es[k].node)
  {
    ExactIsPartial(fs, es, Key(query));
    var p := PicksOf(fs, es, Key(query));
    if p.exact.Some? then Ok(p.exact.value)
    else if p.partial.Some? then Ok(p.partial.value)
    else if p.firstWithIMU.Some? then Ok(p.firstWithIMU.value)
    else Err(NotFound(TrimSpace(query)))
  }

  /** The lookup ignores the white space around the query and the case of its letters:
      only the error message keeps the query's own case. */
  lemma ByNameIgnoresSpaceAndCase(fs: Tree, es: seq<Entry>, query: string)
    ensures ByName(fs, es, TrimSpace(query)) == ByName(fs, es, query)
    ensures ByName(fs, es, ToLower(query)).Ok? <==> ByName(fs, es, query).Ok?
    ensures ByName(fs, es, ToLower(query)).Ok? ==> ByName(fs, es, ToLower(query)).value == ByName(fs, es, query).value
  {
    TrimSpaceIdempotent(query);
    assert Key(TrimSpace(query)) == Key(query);
    TrimSpaceOfLower(query);
    ToLowerIdempotent(TrimSpace(query));
    assert Key(ToLower(query)) == Key(query);
  }

  /** A query that names a device exactly (ignoring case and surrounding white space) picks
      the LAST such device in listing order. */
  lemma ByNameExact(fs: Tree, es: seq<Entry>, query: string, k: nat)
    requires k < |es| && Matches(fs, es[k], Key(query), Exact)
    requires forall j :: k < j < |es| ==> !Matches(fs, es[j], Key(query), Exact)
    ensures ByName(fs, es, query) == Ok(DevicePath(es[k].node))
  {
    var r := LastIndex(es, MatchOf(fs, Key(query), Exact));
    assert r.Some?;
    assert r.value == k;
  }

  /** With no exact match, the FIRST partial match is picked: the device name contains the
      query or is contained in it. */
  lemma ByNamePartial(fs: Tree, es: seq<Entry>, query: string, k: nat)
    requires forall j :: 0 <= j < |es| ==> !Matches(fs, es[j], Key(query), Exact)
    requires k < |es| && Matches(fs, es[k], Key(query), Partial)
    requires forall j :: 0 <= j < k ==> !Matches(fs, es[j], Key(query), Partial)
    ensures ByName(fs, es, query) == Ok(DevicePath(es[k].node))
  {
    var r := FirstIndex(es, MatchOf(fs, Key(query), Partial));
    assert r.Some?;
    assert r.value == k;
  }

  /** With no name match at all, the first device with a gyroscope or accelerometer channel
      is picked. */
  lemma ByNameMotion(fs: Tree, es: seq<Entry>, query: string, k: nat)
    requires forall j :: 0 <= j < |es| ==> !Matches(fs, es[j], Key(query), Partial)
    requires k < |es| && Matches(fs, es[k], Key(query), Motion)
    requires forall j :: 0 <= j < k ==> !Matches(fs, es[j], Key(query), Motion)
    ensures ByName(fs, es, query) == Ok(DevicePath(es[k].node))
  {
    ExactIsPartial(fs, es, Key(query));
    var r := FirstIndex(es, MatchOf(fs, Key(query), Motion));
    assert r.Some?;
    assert r.value == k;
  }

  lemma ExactIsPartial(fs: Tree, es: seq<Entry>, q: string)
    ensures forall j :: 0 <= j < |es| && Matches(fs, es[j], q, Exact) ==> Matches(fs, es[j], q, Partial)
  {
    forall j | 0 <= j < |es| && Matches(fs, es[j], q, Exact)
      ensures Matches(fs, es[j], q, Partial)
    {
      ContainsEmptyAndSelf(q);
    }
  }

  /** A blank query (empty once trimmed) picks the first device with a motion channel, and
      fails when there is none. */
  lemma ByNameBlankQuery(fs: Tree, es: seq<Entry>, query: string)
    requires Key(query) == ""
    ensures ByName(fs, es, query)
      == match FirstIndex(es, MatchOf(fs, "", Motion))
         case Some(k) => Ok(DevicePath(es[k].node))
         case None => Err(NotFound(TrimSpace(query)))
  {
  }

  /** A device whose `name` attribute is missing or blank matches every non-blank query
      partially, since every string contains the empty string: such a device wins over the
      motion-channel fallback even when it has no motion channel. */
  lemma {:induction false} NamelessDeviceMatchesAnyQuery(fs: Tree, e: Entry, query: string)
    requires IsIIODevice(e) && Key(query) != ""
    requires TrimSpace(EntryFiles(fs, e).name.GetOr("")) == ""
    ensures Matches(fs, e, Key(query), Partial)
  {
    ContainsEmptyAndSelf(Key(query));
  }

  /** One step of the scan: how the picks change when entry `e` is visited (for a blank
      query only the motion pick can change). */
  function Visit(fs: Tree, q: string, p: Picks, e: Entry): Picks {
    if !IsIIODevice(e) then p
    else
      var dev := DevicePath(e.node);
      var files := FilesAt(fs, dev);
      var devLower := ToLower(TrimSpace(files.name.GetOr("")));
      var first := if p.firstWithIMU.None? && (files.gyro.rawX || files.accel.rawX) then Some(dev)
                   else p.firstWithIMU;
      if q == "" then p.(firstWithIMU := first)
      else
        Picks(if devLower == q then Some(dev) else p.exact,
              if (Contains(devLower, q) || Contains(q, devLower)) && p.partial.None? then Some(dev)
              else p.partial,
              first)
  }

  lemma PathAtPrefix(es: seq<Entry>, n: nat, k: Option<nat>)
    requires n <= |es| && (k.Some? ==> k.value < n)
    ensures PathAt(es[..n], k) == PathAt(es, k)
  {
    if k.Some? { assert es[..n][k.value] == es[k.value]; }
  }

  /** The exact pick after one more entry: the entry itself when it matches exactly. */
  lemma ExactStep(fs: Tree, es: seq<Entry>, i: nat, q: string)
    requires i < |es|
    ensures PicksOf(fs, es[..i + 1], q).exact
      == if Matches(fs, es[i], q, Exact) then Some(DevicePath(es[i].node)) else PicksOf(fs, es[..i], q).exact
  {
    var p := MatchOf(fs, q, Exact);
    LastIndexStep(es, i, p);
    assert es[..i + 1][i] == es[i];
    PathAtPrefix(es[..i + 1], i, LastIndex(es[..i], p));
    assert es[..i + 1][..i] == es[..i];
  }

  /** The partial pick after one more entry: the entry itself when it is the first partial
      match. */
  lemma PartialStep(fs: Tree, es: seq<Entry>, i: nat, q: string)
    requires i < |es|
    ensures PicksOf(fs, es[..i + 1], q).partial
      == if PicksOf(fs, es[..i], q).partial.None? && Matches(fs, es[i], q, Partial)
         then Some(DevicePath(es[i].node)) else PicksOf(fs, es[..i], q).partial
  {
    var p := MatchOf(fs, q, Partial);
    FirstIndexStep(es, i, p);
    assert es[..i + 1][i] == es[i];
    PathAtPrefix(es[..i + 1], i, FirstIndex(es[..i], p));
    assert es[..i + 1][..i] == es[..i];
  }

  /** The motion pick after one more entry: the entry itself when it is the first with a
      motion channel. */
  lemma MotionStep(fs: Tree, es: seq<Entry>, i: nat, q: string)
    requires i < |es|
    ensures PicksOf(fs, es[..i + 1], q).firstWithIMU
      == if PicksOf(fs, es[..i], q).firstWithIMU.None? && Matches(fs, es[i], q, Motion)
         then Some(DevicePath(es[i].node)) else PicksOf(fs, es[..i], q).firstWithIMU
  {
    var p := MatchOf(fs, q, Motion);
    FirstIndexStep(es, i, p);
    assert es[..i + 1][i] == es[i];
    PathAtPrefix(es[..i + 1], i, FirstIndex(es[..i], p));
    assert es[..i + 1][..i] == es[..i];
  }

  /** Visiting the next entry turns the picks of a prefix into the picks of the longer
      prefix. */
  lemma VisitStep(fs: Tree, es: seq<Entry>, i: nat, q: string)
    requires i < |es|
    ensures Visit(fs, q, PicksOf(fs, es[..i], q), es[i]) == PicksOf(fs, es[..i + 1], q)
  {
    ExactStep(fs, es, i, q);
    PartialStep(fs, es, i, q);
    MotionStep(fs, es, i, q);
  }

  /** For a blank query, the first device with a motion channel found in a prefix is what
      the whole scan would pick. */
  lemma BlankQueryStopsEarly(fs: Tree, es: seq<Entry>, n: nat, query: string)
    requires n <= |es| && Key(query) == "" && PicksOf(fs, es[..n], "").firstWithIMU.Some?
    ensures ByName(fs, es, query) == Ok(PicksOf(fs, es[..n], "").firstWithIMU.value)
  {
    var motionP := MatchOf(fs, "", Motion);
    FirstIndexOfPrefix(es, n, motionP);
    PathAtPrefix(es, n, FirstIndex(es[..n], motionP));
  }

  /** `findIIODeviceByName`: one pass over the listing keeps the last exact match, the first
      partial match and the first device with a motion channel; a blank query returns as
      soon as a device with a motion channel is seen. */
  method FindByName(fs: Tree, query: string) returns (r: Result<string, LookupError>)
    ensures fs.listing.None? ==> r == Err(ReadDirFailed)
    ensures fs.listing.Some? ==> r == ByName(fs, fs.listing.value, query)
  {
    if fs.listing.None? {
      return Err(ReadDirFailed);
    }
    var entries := fs.listing.value;
    var name := TrimSpace(query);
    var nameLower := ToLower(name);

    var exact: Option<string> := None;
    var partial: Option<string> := None;
    var firstWithIMU: Option<string> := None;

    for i := 0 to |entries|
      invariant Picks(exact, partial, firstWithIMU) == PicksOf(fs, entries[..i], nameLower)
      invariant nameLower == "" ==> firstWithIMU.None?
    {
      ghost var before := Picks(exact, partial, firstWithIMU);
      VisitStep(fs, entries, i, nameLower);
      var e := entries[i];
      if !IsIIODevice(e) {
        continue;
      }
      var dev := DevicePath(e.node);
      var files := FilesAt(fs, dev);
      var devLower := ToLower(TrimSpace(files.name.GetOr("")));
      var hasGyro := files.gyro.rawX;
      var hasAccel := files.accel.rawX;
      if firstWithIMU.None? && (hasGyro || hasAccel) {
        firstWithIMU := Some(dev);
      }
      if nameLower == "" {
        if firstWithIMU.Some? {
          assert Picks(exact, partial, firstWithIMU) == Visit(fs, nameLower, before, e);
          BlankQueryStopsEarly(fs, entries, i + 1, query);
          return Ok(firstWithIMU.value);
        }
        continue;
      }
      if devLower == nameLower {
        exact := Some(dev);
      }
      if Contains(devLower, nameLower) || Contains(nameLower, devLower) {
        if partial.None? {
          partial := Some(dev);
        }
      }
      assert Picks(exact, partial, firstWithIMU) == Visit(fs, nameLower, before, e);
    }
    assert entries[..|entries|] == entries;
    if exact.Some? {
      return Ok(exact.value);
    } else if partial.Some? {
      return Ok(partial.value);
    } else if firstWithIMU.Some? {
      return Ok(firstWithIMU.value);
    } else {
      return Err(NotFound(name));
    }
  }

  // ---------- findFirstIIODeviceWith ----------

  /** The device offers every sensor requested. */
  predicate Offers(fs: Tree, e: Entry, wantGyro: bool, wantAccel: bool) {
    (wantGyro ==> HasGyro(fs, e)) && (wantAccel ==> HasAccel(fs, e))
  }

  /** `path` is the path of an IIO device of `es` that offers the requested sensors and whose
      name is least among all devices of `es` that do. */
  ghost predicate IsLeastOffering(fs: Tree, es: seq<Entry>, path: string, wantGyro: bool, wantAccel: bool) {
    exists e :: e in es && IsIIODevice(e) && Offers(fs, e, wantGyro, wantAccel) && path == DevicePath(e.node)
      && forall e' :: e' in es && IsIIODevice(e') && Offers(fs, e', wantGyro, wantAccel) ==> StrLeq(e.node, e'.node)
  }

  /** At most one path is the least offering one, and its files offer what was requested. */
  lemma LeastOfferingUnique(fs: Tree, es: seq<Entry>, p: string, p': string, wantGyro: bool, wantAccel: bool)
    requires IsLeastOffering(fs, es, p, wantGyro, wantAccel)
    requires IsLeastOffering(fs, es, p', wantGyro, wantAccel)
    ensures p == p'
    ensures (wantGyro ==> FilesAt(fs, p).gyro.rawX) && (wantAccel ==> FilesAt(fs, p).accel.rawX)
  {
    var e :| e in es && IsIIODevice(e) && Offers(fs, e, wantGyro, wantAccel) && p == DevicePath(e.node)
      && forall e' :: e' in es && IsIIODevice(e') && Offers(fs, e', wantGyro, wantAccel) ==> StrLeq(e.node, e'.node);
    var f :| f in es && IsIIODevice(f) && Offers(fs, f, wantGyro, wantAccel) && p' == DevicePath(f.node)
      && forall e' :: e' in es && IsIIODevice(e') && Offers(fs, e', wantGyro, wantAccel) ==> StrLeq(f.node, e'.node);
    StrLeqAntisym(e.node, f.node);
  }

  /** The IIO devices of a listing, in listing order. */
  function Candidates(es: seq<Entry>): (r: seq<Entry>)
    ensures forall e :: e in r <==> e in es && IsIIODevice(e)
    decreases |es|
  {
    if es == [] then []
    else
      var last := es[|es| - 1];
      assert es == es[..|es| - 1] + [last];
      Candidates(es[..|es| - 1]) + (if IsIIODevice(last) then [last] else [])
  }

  predicate SortedByNode(s: seq<Entry>) {
    forall i, j :: 0 <= i < j < |s| ==> StrLeq(s[i].node, s[j].node)
  }

  /** Inserts `e` into a list sorted by name. */
  function Insert(e: Entry, s: seq<Entry>): (r: seq<Entry>)
    ensures multiset(r) == multiset(s) + multiset{e}
  {
    if s == [] || StrLeq(e.node, s[0].node) then [e] + s
    else
      assert s == [s[0]] + s[1..];
      [s[0]] + Insert(e, s[1..])
  }

  lemma {:induction false} InsertSorted(e: Entry, s: seq<Entry>)
    requires SortedByNode(s)
    ensures SortedByNode(Insert(e, s))
  {
    if s == [] {
    } else if StrLeq(e.node, s[0].node) {
      forall j | 0 <= j < |s| ensures StrLeq(e.node, s[j].node) {
        if j > 0 { StrLeqTrans(e.node, s[0].node, s[j].node); }
      }
    } else {
      StrLeqTotal(e.node, s[0].node);
      var rest := Insert(e, s[1..]);
      InsertSorted(e, s[1..]);
      forall j | 0 <= j < |rest| ensures StrLeq(s[0].node, rest[j].node) {
        assert rest[j] in multiset(rest);
        if rest[j] != e {
          assert rest[j] in multiset(s[1..]);
          var m :| 0 <= m < |s[1..]| && s[1..][m] == rest[j];
          assert s[m + 1] == rest[j];
        }
      }
    }
  }

  /** `sort.Strings` on the candidates' names, carried out on the entries themselves. */
  function SortByNode(s: seq<Entry>): (r: seq<Entry>)
    ensures multiset(r) == multiset(s)
  {
    if s == [] then []
    else
      assert s == [s[0]] + s[1..];
      Insert(s[0], SortByNode(s[1..]))
  }

  lemma {:induction false} SortByNodeSorted(s: seq<Entry>)
    ensures SortedByNode(SortByNode(s))
  {
    if s != [] {
      SortByNodeSorted(s[1..]);
      InsertSorted(s[0], SortByNode(s[1..]));
    }
  }

  /** The candidates in `sorted` are exactly the IIO devices of `es`, and `sorted` is in name
      order: the first entry of `sorted` offering the sensors is the least one. */
  lemma FirstOfferingIsLeast(fs: Tree, es: seq<Entry>, sorted: seq<Entry>, i: nat, wantGyro: bool, wantAccel: bool)
    requires SortedByNode(sorted)
    requires forall e :: e in sorted <==> e in es && IsIIODevice(e)
    requires i < |sorted| && Offers(fs, sorted[i], wantGyro, wantAccel)
    requires forall j :: 0 <= j < i ==> !Offers(fs, sorted[j], wantGyro, wantAccel)
    ensures IsLeastOffering(fs, es, DevicePath(sorted[i].node), wantGyro, wantAccel)
  {
    var e := sorted[i];
    forall e' | e' in es && IsIIODevice(e') && Offers(fs, e', wantGyro, wantAccel)
      ensures StrLeq(e.node, e'.node)
    {
      var j :| 0 <= j < |sorted| && sorted[j] == e';
      if j == i { StrLeqRefl(e.node); }
    }
  }

  /** When no entry of `sorted` offers the sensors, no IIO device of `es` does. */
  lemma NoneOffering(fs: Tree, es: seq<Entry>, sorted: seq<Entry>, wantGyro: bool, wantAccel: bool)
    requires forall e :: e in sorted <==> e in es && IsIIODevice(e)
    requires forall j :: 0 <= j < |sorted| ==> !Offers(fs, sorted[j], wantGyro, wantAccel)
    ensures !exists e :: e in es && IsIIODevice(e) && Offers(fs, e, wantGyro, wantAccel)
  {
    forall e | e in es && IsIIODevice(e) ensures !Offers(fs, e, wantGyro, wantAccel) {
      var j :| 0 <= j < |sorted| && sorted[j] == e;
    }
  }

  /** The loop of `findFirstIIODeviceWith` that collects the IIO device entries. */
  method CollectCandidates(entries: seq<Entry>) returns (names: seq<Entry>)
    ensures names == Candidates(entries)
  {
    names := [];
    for i := 0 to |entries|
      invariant names == Candidates(entries[..i])
    {
      assert entries[..i + 1][..i] == entries[..i];
      if IsIIODevice(entries[i]) {
        names := names + [entries[i]];
      }
    }
    assert entries[..|entries|] == entries;
  }

  /** The search loop of `findFirstIIODeviceWith`: the first candidate in name order whose
      files offer every requested sensor. */
  method FirstOffering(fs: Tree, es: seq<Entry>, sorted: seq<Entry>, wantGyro: bool, wantAccel: bool)
    returns (r: Result<string, LookupError>)
    requires SortedByNode(sorted)
    requires forall e :: e in sorted <==> e in es && IsIIODevice(e)
    ensures r.Ok? <==> exists e :: e in es && IsIIODevice(e) && Offers(fs, e, wantGyro, wantAccel)
    ensures r.Err? ==> r.error == NoMatch(wantGyro, wantAccel)
    ensures r.Ok? ==> IsLeastOffering(fs, es, r.value, wantGyro, wantAccel)
  {
    for i := 0 to |sorted|
      invariant forall j :: 0 <= j < i ==> !Offers(fs, sorted[j], wantGyro, wantAccel)
    {
      var dev := DevicePath(sorted[i].node);
      var files := FilesAt(fs, dev);
      var hasGyro := files.gyro.rawX;
      var hasAccel := files.accel.rawX;
      if (wantGyro && !hasGyro) || (wantAccel && !hasAccel) {
        continue;
      }
      FirstOfferingIsLeast(fs, es, sorted, i, wantGyro, wantAccel);
      return Ok(dev);
    }
    NoneOffering(fs, es, sorted, wantGyro, wantAccel);
    return Err(NoMatch(wantGyro, wantAccel));
  }

  /** `findFirstIIODeviceWith`: fails at once when no sensor is requested; otherwise lists
      the IIO devices, sorts them by name and returns the first that offers every requested
      sensor, so its name is the least among all devices that do. */
  method FindFirstWith(fs: Tree, wantGyro: bool, wantAccel: bool) returns (r: Result<string, LookupError>)
    ensures !wantGyro && !wantAccel ==> r == Err(NothingRequested)
    ensures (wantGyro || wantAccel) && fs.listing.None? ==> r == Err(ReadDirFailed)
    ensures (wantGyro || wantAccel) && fs.listing.Some? ==>
      (r.Ok? <==> exists e :: e in fs.listing.value && IsIIODevice(e) && Offers(fs, e, wantGyro, wantAccel))
    ensures (wantGyro || wantAccel) && fs.listing.Some? && r.Err? ==> r.error == NoMatch(wantGyro, wantAccel)
    ensures r.Ok? ==> fs.listing.Some? && IsLeastOffering(fs, fs.listing.value, r.value, wantGyro, wantAccel)
  {
    if !wantGyro && !wantAccel {
      return Err(NothingRequested);
    }
    if fs.listing.None? {
      return Err(ReadDirFailed);
    }
    var entries := fs.listing.value;
    var names := CollectCandidates(entries);
    var sorted := SortByNode(names);
    SortByNodeSorted(names);
    assert forall e :: e in sorted <==> e in multiset(names);
    r := FirstOffering(fs, entries, sorted, wantGyro, wantAccel);
  }
}
