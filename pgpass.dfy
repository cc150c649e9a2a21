/**
 * The `.pgpass` tool (src/tools/pgpass/flow.rs): entries built from the
 * Satori credentials and inventory, the file's lines parsed back into
 * entries, and the file rewritten with the Satori entries merged in.
 *
 * Entries compare and hash by host, port and database only, so a hash set
 * of entries is modelled as a map from that key to the entry the set keeps.
 * The file is I/O: its content before the run is a parameter and its
 * content after the run a result.
 */
module PgPass {
  import opened Wrappers
  import opened Strings
  import opened Datastores
  import opened LoginData
  import LoginFlow
  import opened ToolsErrors

  datatype EntryKey = EntryKey(host: String, port: nat, database: String)

  datatype PgPassEntry = PgPassEntry(host: String, port: nat, database: String, username: String, password: String) {
    /** The fields `eq` and `hash` look at. */
    function Key(): EntryKey { EntryKey(host, port, database) }
  }

  /** A `HashSet<PgPassEntry>`: each key with the entry the set holds for it. */
  type EntrySet = map<EntryKey, PgPassEntry>

  predicate WellKeyed(s: EntrySet) {
    forall k :: k in s ==> s[k].Key() == k
  }

  /** `Display`: the five fields joined by `:`. */
  function Display(e: PgPassEntry): String {
    e.host + ":" + NatToString(e.port) + ":" + e.database + ":" + e.username + ":" + e.password
  }

  /** The fields of an entry hold no `:` and its port is a `u16`: what survives a round trip
      through a line of the file. */
  predicate Clean(e: PgPassEntry) {
    ':' !in e.host && ':' !in e.database && ':' !in e.username && ':' !in e.password && e.port < 0x1_0000
  }

  /** Every entry of the set is clean. */
  predicate AllClean(s: EntrySet) {
    forall k :: k in s ==> Clean(s[k])
  }

  /** `From<String>`: the first five `:`-separated fields, the second parsed as a `u16`. `None`
      stands for the panic of an `unwrap` (fewer than five fields, or a port that does not
      parse); fields after the fifth are ignored. */
  function Parse(line: String): (r: Option<PgPassEntry>)
    ensures r.Some? <==> |Split(line, ':')| >= 5 && ParseU16(Split(line, ':')[1]).Some?
    ensures r.Some? ==> Clean(r.value)
  {
    var fields := Split(line, ':');
    if |fields| < 5 then None
    else match ParseU16(fields[1])
      case None => None
      case Some(port) => Some(PgPassEntry(fields[0], port, fields[2], fields[3], fields[4]))
  }

  /** Four `:`-free fields, each followed by `:`, split off as the first four pieces. */
  lemma SplitFour(a: String, b: String, c: String, d: String, rest: String)
    requires ':' !in a && ':' !in b && ':' !in c && ':' !in d
    ensures Split(a + ":" + b + ":" + c + ":" + d + ":" + rest, ':') == [a, b, c, d] + Split(rest, ':')
  {
    var t3 := d + [':'] + rest;
    var t2 := c + [':'] + t3;
    var t1 := b + [':'] + t2;
    assert a + ":" + b + ":" + c + ":" + d + ":" + rest == a + [':'] + t1;
    SplitPrefix(a, t1, ':');
    SplitPrefix(b, t2, ':');
    SplitPrefix(c, t3, ':');
    SplitPrefix(d, rest, ':');
  }

  /** A clean entry parses back from its display. */
  lemma ParseDisplay(e: PgPassEntry)
    requires Clean(e)
    ensures Parse(Display(e)) == Some(e)
  {
    var p := NatToString(e.port);
    assert ':' !in p by {
      assert forall i :: 0 <= i < |p| ==> IsDigit(p[i]);
    }
    SplitFour(e.host, p, e.database, e.username, e.password);
    ParseU16OfNatToString(e.port);
  }

  /** The format has no escape for `:`: a password containing one comes back cut at its first
      `:`. */
  lemma ColonCutsPassword(e: PgPassEntry, before: String, after: String)
    requires ':' !in e.host && ':' !in e.database && ':' !in e.username && ':' !in before
    requires e.port < 0x1_0000 && e.password == before + ":" + after
    ensures Parse(Display(e)) == Some(e.(password := before))
  {
    var p := NatToString(e.port);
    assert ':' !in p by {
      assert forall i :: 0 <= i < |p| ==> IsDigit(p[i]);
    }
    SplitFour(e.host, p, e.database, e.username, e.password);
    SplitPrefix(before, after, ':');
    ParseU16OfNatToString(e.port);
  }

  // ---------------------------------------------------------------------------------------------
  // Entries from the file

  /** The entries of the lines, or `None` when a line fails to parse. */
  function ParseLines(lines: seq<String>): (r: Option<seq<PgPassEntry>>)
    ensures r.Some? <==> forall i :: 0 <= i < |lines| ==> Parse(lines[i]).Some?
    ensures r.Some? ==> |r.value| == |lines| && forall i :: 0 <= i < |lines| ==> Parse(lines[i]) == Some(r.value[i])
  {
    if |lines| == 0 then Some([])
    else
      var prefix := lines[..|lines| - 1];
      assert forall i :: 0 <= i < |prefix| ==> prefix[i] == lines[i];
      match (ParseLines(prefix), Parse(lines[|lines| - 1]))
      case (Some(es), Some(e)) => Some(es + [e])
      case _ => None
  }

  /** Inserting the entries in order into a hash set: an entry whose key is already present is
      not inserted, so the first entry of each key is kept. */
  function CollectFirst(entries: seq<PgPassEntry>): EntrySet {
    if |entries| == 0 then map[]
    else
      var m := CollectFirst(entries[..|entries| - 1]);
      var e := entries[|entries| - 1];
      if e.Key() in m then m else m[e.Key() := e]
  }

  /** No entry before position `i` has the key of the entry at `i`. */
  predicate FirstWithKey(entries: seq<PgPassEntry>, i: nat) {
    i < |entries| && forall j :: 0 <= j < i ==> entries[j].Key() != entries[i].Key()
  }

  lemma {:induction false} CollectFirstKeys(entries: seq<PgPassEntry>)
    ensures WellKeyed(CollectFirst(entries))
    ensures CollectFirst(entries).Keys == set i | 0 <= i < |entries| :: entries[i].Key()
  {
    if |entries| > 0 {
      var prefix := entries[..|entries| - 1];
      CollectFirstKeys(prefix);
      assert (set i | 0 <= i < |entries| :: entries[i].Key())
          == (set i | 0 <= i < |prefix| :: prefix[i].Key()) + {entries[|entries| - 1].Key()} by {
        assert forall i :: 0 <= i < |prefix| ==> prefix[i] == entries[i];
      }
    }
  }

  /** The set keeps, for each key, the first entry carrying it. */
  lemma {:induction false} CollectFirstValue(entries: seq<PgPassEntry>, i: nat)
    requires FirstWithKey(entries, i)
    ensures entries[i].Key() in CollectFirst(entries)
    ensures CollectFirst(entries)[entries[i].Key()] == entries[i]
  {
    var prefix := entries[..|entries| - 1];
    CollectFirstKeys(prefix);
    if i < |entries| - 1 {
      assert prefix[i] == entries[i];
      assert FirstWithKey(prefix, i) by {
        forall j | 0 <= j < i ensures prefix[j].Key() != prefix[i].Key() {
          assert prefix[j] == entries[j];
        }
      }
      CollectFirstValue(prefix, i);
    } else {
      assert entries[i].Key() !in CollectFirst(prefix) by {
        forall j | 0 <= j < |prefix| ensures prefix[j].Key() != entries[i].Key() {
          assert prefix[j] == entries[j];
        }
      }
    }
  }

  /** Every entry the set keeps is one of the inserted entries, so clean entries give a clean
      set. */
  lemma {:induction false} CollectFirstClean(entries: seq<PgPassEntry>)
    requires forall i :: 0 <= i < |entries| ==> Clean(entries[i])
    ensures AllClean(CollectFirst(entries))
  {
    if |entries| > 0 {
      CollectFirstClean(entries[..|entries| - 1]);
    }
  }

  /** What reading the file yields: its entries, the failure of a line read, or the panic of a
      line that does not parse. */
  datatype FileRead = Read(entries: EntrySet) | ReadFailed | ParsePanic

  /** `pgpass_from_file` over the lines read before the reader stops, where `readError` says
      whether it stops on an error. Lines are converted as they are read, so a line that does
      not parse panics before a later read error is seen. */
  function PgPassFromFile(lines: seq<String>, readError: bool): (r: FileRead)
    ensures r.ParsePanic? <==> exists i :: 0 <= i < |lines| && Parse(lines[i]).None?
    ensures r.ReadFailed? <==> readError && ParseLines(lines).Some?
    ensures r.Read? ==> WellKeyed(r.entries) && AllClean(r.entries)
    ensures r.Read? ==> r.entries.Keys == set i | 0 <= i < |lines| :: ParseLines(lines).value[i].Key()
    ensures r.Read? ==> forall i: nat :: FirstWithKey(ParseLines(lines).value, i) ==>
      var e := ParseLines(lines).value[i]; e.Key() in r.entries && r.entries[e.Key()] == e
  {
    match ParseLines(lines)
    case None => ParsePanic
    case Some(entries) =>
      if readError then ReadFailed
      else
        CollectFirstKeys(entries);
        CollectFirstClean(entries);
        forall i: nat | FirstWithKey(entries, i)
          ensures entries[i].Key() in CollectFirst(entries) && CollectFirst(entries)[entries[i].Key()] == entries[i]
        {
          CollectFirstValue(entries, i);
        }
        Read(CollectFirst(entries))
  }

  // ---------------------------------------------------------------------------------------------
  // Entries from Satori

  /** A datastore contributes entries when it speaks the PostgreSQL dialect and has a port. */
  predicate Contributes(info: DatastoreInfo) {
    info.datastoreType.IsPostgresDialect() && info.port.Some?
  }

  /** The host of an entry: `get_datastore_name`, which never fails for a PostgreSQL-dialect
      datastore (its `expect` cannot fire). */
  function HostOf(info: DatastoreInfo): (host: String)
    requires Contributes(info)
    ensures host == info.satoriHost
  {
    GetDatastoreName(info).value
  }

  /** The keys of the Satori entries: one per database of each contributing datastore. */
  function SatoriKeys(info: DatastoresInfo): set<EntryKey> {
    set name, db | name in info.datastores && Contributes(info.datastores[name]) && db in info.datastores[name].databases
      :: EntryKey(HostOf(info.datastores[name]), info.datastores[name].port.value, db)
  }

  /** `pgpass_from_satori_db`: every Satori entry carries the Satori credentials. */
  function PgPassFromSatoriDb(info: DatastoresInfo, credentials: Credentials): (r: EntrySet)
    ensures WellKeyed(r)
    ensures r.Keys == SatoriKeys(info)
    ensures forall k :: k in r ==> r[k].username == credentials.username && r[k].password == credentials.password
  {
    map k | k in SatoriKeys(info) :: PgPassEntry(k.host, k.port, k.database, credentials.username, credentials.password)
  }

  /** Each database of a contributing datastore gets an entry at the datastore's host and port;
      every entry comes from such a database. */
  lemma SatoriEntriesFromDatastores(info: DatastoresInfo, credentials: Credentials)
    ensures forall name, db :: name in info.datastores && Contributes(info.datastores[name]) && db in info.datastores[name].databases ==>
      EntryKey(info.datastores[name].satoriHost, info.datastores[name].port.value, db) in PgPassFromSatoriDb(info, credentials)
    ensures forall k :: k in PgPassFromSatoriDb(info, credentials) ==>
      exists name :: name in info.datastores && Contributes(info.datastores[name])
        && k.host == info.datastores[name].satoriHost && k.port == info.datastores[name].port.value
        && k.database in info.datastores[name].databases
  {
  }

  // ---------------------------------------------------------------------------------------------
  // Merging

  /** `a.difference(b)`: the entries of `a` whose key is not in `b`. */
  function Difference(a: EntrySet, b: EntrySet): (r: EntrySet)
    ensures r.Keys == a.Keys - b.Keys
    ensures forall k :: k in r ==> r[k] == a[k]
  {
    map k | k in a && k !in b :: a[k]
  }

  /** `satori.intersection(existing)` as the standard library runs it: it iterates the smaller
      set (the receiver when the sizes are equal), so the entries come from `existing` when it is
      the smaller one. */
  function IntersectionAsWritten(satori: EntrySet, existing: EntrySet): (r: EntrySet)
    ensures r.Keys == satori.Keys * existing.Keys
    ensures |satori| <= |existing| ==> forall k :: k in r ==> r[k] == satori[k]
    ensures |satori| > |existing| ==> forall k :: k in r ==> r[k] == existing[k]
  {
    if |satori| <= |existing| then map k | k in satori && k in existing :: satori[k]
    else map k | k in existing && k in satori :: existing[k]
  }

  /** The intended intersection: the Satori entries whose key is already in the file, so that
      they carry the fresh credentials. */
  function IntersectionFresh(satori: EntrySet, existing: EntrySet): (r: EntrySet)
    ensures r.Keys == satori.Keys * existing.Keys
    ensures forall k :: k in r ==> r[k] == satori[k]
  {
    map k | k in satori && k in existing :: satori[k]
  }

  /** A file holding one Satori entry with old credentials, and Satori now offering that entry
      and one more with new credentials: the written intersection keeps the old password. */
  lemma StaleCredentialsKept()
    ensures var old_ := PgPassEntry("h", 5432, "a", "u", "old");
      var a := PgPassEntry("h", 5432, "a", "u", "new");
      var b := PgPassEntry("h", 5432, "b", "u", "new");
      var existing := map[old_.Key() := old_];
      var satori := map[a.Key() := a, b.Key() := b];
      && IntersectionAsWritten(satori, existing)[a.Key()].password == "old"
      && IntersectionFresh(satori, existing)[a.Key()].password == "new"
  {
    var old_ := PgPassEntry("h", 5432, "a", "u", "old");
    var a := PgPassEntry("h", 5432, "a", "u", "new");
    var b := PgPassEntry("h", 5432, "b", "u", "new");
    var existing := map[old_.Key() := old_];
    var satori := map[a.Key() := a, b.Key() := b];
    assert a.Key() != b.Key();
    assert satori.Keys == {a.Key(), b.Key()};
    assert |satori| == 2;
    assert |existing| == 1;
    assert a.Key() in IntersectionAsWritten(satori, existing);
  }

  /** What the command writes into an existing file: the user's own entries, the new Satori
      entries, and the common entries as `IntersectionAsWritten` yields them. */
  function MergedAsWritten(existing: EntrySet, satori: EntrySet): EntrySet {
    Difference(existing, satori) + Difference(satori, existing) + IntersectionAsWritten(satori, existing)
  }

  /** The merge as written keeps every key of both sides and the user's other entries; a new
      Satori key gets the Satori entry, and a common key the entry of the smaller side. */
  lemma MergedAsWrittenEntries(existing: EntrySet, satori: EntrySet, k: EntryKey)
    ensures k in MergedAsWritten(existing, satori) <==> k in existing || k in satori
    ensures k in satori && k !in existing ==> MergedAsWritten(existing, satori)[k] == satori[k]
    ensures k in existing && k !in satori ==> MergedAsWritten(existing, satori)[k] == existing[k]
    ensures k in satori && k in existing ==>
      MergedAsWritten(existing, satori)[k] == if |satori| <= |existing| then satori[k] else existing[k]
  {
    var d0, d1, c := Difference(existing, satori), Difference(satori, existing), IntersectionAsWritten(satori, existing);
    UnionOfThree(d0, d1, c);
    if k in c {
      assert k in satori && k in existing;
    } else if k in d1 {
      assert k in satori && k !in existing;
    } else if k in d0 {
      assert k in existing && k !in satori;
    }
  }

  /** The union of three maps: its keys, and each key's entry from the last map holding it. */
  lemma UnionOfThree(d0: EntrySet, d1: EntrySet, common: EntrySet)
    ensures (d0 + d1 + common).Keys == d0.Keys + d1.Keys + common.Keys
    ensures forall k :: k in common ==> (d0 + d1 + common)[k] == common[k]
    ensures forall k :: k in d1 && k !in common ==> (d0 + d1 + common)[k] == d1[k]
    ensures forall k :: k in d0 && k !in d1 && k !in common ==> (d0 + d1 + common)[k] == d0[k]
  {
  }

  /** The intended merge: the intersection with the Satori entries, so that every Satori key gets
      the fresh credentials. */
  function Merged(existing: EntrySet, satori: EntrySet): EntrySet {
    Difference(existing, satori) + Difference(satori, existing) + IntersectionFresh(satori, existing)
  }

  /** The intended merge keeps every key of both sides, gives every Satori key the Satori entry,
      and leaves the user's other entries as they were. */
  lemma MergedEntries(existing: EntrySet, satori: EntrySet)
    ensures Merged(existing, satori).Keys == existing.Keys + satori.Keys
    ensures forall k :: k in satori ==> Merged(existing, satori)[k] == satori[k]
    ensures forall k :: k in existing && k !in satori ==> Merged(existing, satori)[k] == existing[k]
  {
  }

  /** Unless the file holds fewer entries than Satori offers, the merge as written is the
      intended one. */
  lemma MergesAgreeUnlessFileSmaller(existing: EntrySet, satori: EntrySet)
    requires |satori| <= |existing|
    ensures MergedAsWritten(existing, satori) == Merged(existing, satori)
  {
    assert IntersectionAsWritten(satori, existing) == IntersectionFresh(satori, existing);
  }

  /** On the input of `StaleCredentialsKept`, the file the command writes keeps the old password
      where the intended merge has the new one. */
  lemma RunMergeKeepsStale()
    ensures var old_ := PgPassEntry("h", 5432, "a", "u", "old");
      var a := PgPassEntry("h", 5432, "a", "u", "new");
      var b := PgPassEntry("h", 5432, "b", "u", "new");
      var existing := map[old_.Key() := old_];
      var satori := map[a.Key() := a, b.Key() := b];
      && MergedAsWritten(existing, satori)[a.Key()].password == "old"
      && Merged(existing, satori)[a.Key()].password == "new"
  {
    var old_ := PgPassEntry("h", 5432, "a", "u", "old");
    var a := PgPassEntry("h", 5432, "a", "u", "new");
    var b := PgPassEntry("h", 5432, "b", "u", "new");
    var existing := map[old_.Key() := old_];
    var satori := map[a.Key() := a, b.Key() := b];
    StaleCredentialsKept();
    MergedAsWrittenEntries(existing, satori, a.Key());
    assert a.Key() in satori && a.Key() in existing;
    assert a.Key() != b.Key();
    assert satori.Keys == {a.Key(), b.Key()};
    assert |satori| == 2 && |existing| == 1;
  }

  // ---------------------------------------------------------------------------------------------
  // Writing the file

  /** The written entries as a set, later entries replacing earlier ones of the same key. */
  function AsMap(written: seq<PgPassEntry>): EntrySet {
    if |written| == 0 then map[]
    else AsMap(written[..|written| - 1])[written[|written| - 1].Key() := written[|written| - 1]]
  }

  predicate DistinctKeys(written: seq<PgPassEntry>) {
    forall i, j :: 0 <= i < j < |written| ==> written[i].Key() != written[j].Key()
  }

  /** The lines of the written entries. */
  function Displays(written: seq<PgPassEntry>): (lines: seq<String>)
    ensures |lines| == |written|
    ensures forall i :: 0 <= i < |written| ==> lines[i] == Display(written[i])
  {
    if |written| == 0 then []
    else
      var prefix := written[..|written| - 1];
      assert forall i :: 0 <= i < |prefix| ==> prefix[i] == written[i];
      Displays(prefix) + [Display(written[|written| - 1])]
  }

  lemma {:induction false} AsMapKeys(written: seq<PgPassEntry>)
    ensures AsMap(written).Keys == set i | 0 <= i < |written| :: written[i].Key()
  {
    if |written| > 0 {
      var prefix := written[..|written| - 1];
      AsMapKeys(prefix);
      assert (set i | 0 <= i < |written| :: written[i].Key())
          == (set i | 0 <= i < |prefix| :: prefix[i].Key()) + {written[|written| - 1].Key()} by {
        assert forall i :: 0 <= i < |prefix| ==> prefix[i] == written[i];
      }
    }
  }

  /** With distinct keys, each entry is the one the set holds for its key. */
  lemma {:induction false} AsMapEntry(written: seq<PgPassEntry>, i: nat)
    requires DistinctKeys(written) && i < |written|
    ensures written[i].Key() in AsMap(written) && AsMap(written)[written[i].Key()] == written[i]
  {
    if i < |written| - 1 {
      var prefix := written[..|written| - 1];
      assert DistinctKeys(prefix) by {
        assert forall j :: 0 <= j < |prefix| ==> prefix[j] == written[j];
      }
      assert prefix[i] == written[i];
      AsMapEntry(prefix, i);
      assert written[i].Key() != written[|written| - 1].Key();
    }
  }

  /** Appending an entry whose key is new keeps the keys distinct and adds it to the set. */
  lemma AppendEntry(written: seq<PgPassEntry>, e: PgPassEntry)
    requires DistinctKeys(written) && e.Key() !in AsMap(written)
    ensures DistinctKeys(written + [e])
    ensures AsMap(written + [e]) == AsMap(written)[e.Key() := e]
  {
    AsMapKeys(written);
    assert (written + [e])[..|written|] == written;
    forall i | 0 <= i < |written| ensures written[i].Key() != e.Key() {
      assert written[i].Key() in AsMap(written);
    }
  }

  /** With distinct keys, the set read back from the entries is the set written. */
  lemma {:induction false} CollectFirstDistinct(written: seq<PgPassEntry>)
    requires DistinctKeys(written)
    ensures CollectFirst(written) == AsMap(written)
  {
    if |written| > 0 {
      var prefix := written[..|written| - 1];
      assert DistinctKeys(prefix) by {
        assert forall i :: 0 <= i < |prefix| ==> prefix[i] == written[i];
      }
      CollectFirstDistinct(prefix);
      CollectFirstKeys(prefix);
      assert written[|written| - 1].Key() !in CollectFirst(prefix) by {
        forall j | 0 <= j < |prefix| ensures prefix[j].Key() != written[|written| - 1].Key() {
          assert prefix[j] == written[j];
        }
      }
    }
  }

  /** Clean entries parse back from their lines. */
  lemma {:induction false} ParseLinesDisplays(written: seq<PgPassEntry>)
    requires forall i :: 0 <= i < |written| ==> Clean(written[i])
    ensures ParseLines(Displays(written)) == Some(written)
  {
    if |written| > 0 {
      var prefix, last := written[..|written| - 1], written[|written| - 1];
      var lines := Displays(written);
      assert written == prefix + [last];
      assert lines[..|lines| - 1] == Displays(prefix);
      assert lines[|lines| - 1] == Display(last);
      ParseLinesDisplays(prefix);
      ParseDisplay(last);
    }
  }

  /** A file written from clean entries with distinct keys reads back as the set written. */
  lemma RereadWritten(written: seq<PgPassEntry>)
    requires DistinctKeys(written)
    requires forall i :: 0 <= i < |written| ==> Clean(written[i])
    ensures PgPassFromFile(Displays(written), false) == Read(AsMap(written))
  {
    ParseLinesDisplays(written);
    CollectFirstDistinct(written);
  }

  /** Where the loop of `WriteGroup` stands: the entries `done` of `group` have been written after
      `before`, and `remaining` are still to come. */
  predicate WriteProgress(group: EntrySet, before: seq<PgPassEntry>, written: seq<PgPassEntry>,
                          done: EntrySet, remaining: EntrySet) {
    && |before| <= |written| && written[..|before|] == before
    && DistinctKeys(written)
    && (forall i :: |before| <= i < |written| ==> written[i].Key() in group && group[written[i].Key()] == written[i])
    && done + remaining == group && remaining.Keys !! done.Keys
    && AsMap(written) == AsMap(before) + done
    && remaining.Keys !! AsMap(written).Keys
  }

  /** Writing one remaining entry moves it from `remaining` to `done`. */
  lemma WriteProgressStep(group: EntrySet, before: seq<PgPassEntry>, written: seq<PgPassEntry>,
                          done: EntrySet, remaining: EntrySet, k: EntryKey)
    requires WellKeyed(group) && WriteProgress(group, before, written, done, remaining) && k in remaining
    ensures WriteProgress(group, before, written + [remaining[k]], done[k := remaining[k]], remaining - {k})
  {
    var e := remaining[k];
    assert group[k] == e;
    AppendEntry(written, e);
    assert (written + [e])[..|before|] == before by {
      assert (written + [e])[..|written|] == written;
    }
    assert AsMap(written + [e]) == AsMap(before) + done[k := e];
  }

  /** One `for entry in group { writeln!(file, "{entry}")? }` loop, continuing a file that so far
      holds the lines of `before`. The set is visited in an unspecified order; the write of line
      `n` of the file succeeds when `writable(n)`. */
  method WriteGroup(group: EntrySet, before: seq<PgPassEntry>, writable: nat -> bool)
    returns (ok: bool, written: seq<PgPassEntry>)
    requires WellKeyed(group) && DistinctKeys(before)
    requires group.Keys !! AsMap(before).Keys
    ensures |before| <= |written| && written[..|before|] == before
    ensures DistinctKeys(written)
    ensures forall i :: |before| <= i < |written| ==> written[i].Key() in group && group[written[i].Key()] == written[i]
    ensures ok ==> AsMap(written) == AsMap(before) + group
    ensures forall n :: |before| <= n < |written| ==> writable(n)
    ensures !ok ==> !(group.Keys <= AsMap(written).Keys) && !writable(|written|)
  {
    var remaining := group;
    ghost var done: EntrySet := map[];
    written := before;
    ok := true;
    assert done + remaining == group;
    assert AsMap(written) == AsMap(before) + done;
    while ok && remaining != map[]
      invariant WriteProgress(group, before, written, done, remaining)
      invariant forall n :: |before| <= n < |written| ==> writable(n)
      invariant !ok ==> remaining != map[] && !writable(|written|)
      decreases remaining.Keys, ok
    {
      var k :| k in remaining;
      if writable(|written|) {
        WriteProgressStep(group, before, written, done, remaining, k);
        written := written + [remaining[k]];
        done := done[k := remaining[k]];
        remaining := remaining - {k};
      } else {
        ok := false;
      }
    }
    if ok {
      assert done == group;
    } else {
      var k :| k in remaining;
      assert k in group && k !in AsMap(written);
    }
  }

  /** Entries with distinct keys make a set of as many entries. */
  lemma {:induction false} DistinctSize(written: seq<PgPassEntry>)
    requires DistinctKeys(written)
    ensures |AsMap(written)| == |written|
  {
    if |written| > 0 {
      var prefix := written[..|written| - 1];
      assert DistinctKeys(prefix) by {
        assert forall i :: 0 <= i < |prefix| ==> prefix[i] == written[i];
      }
      DistinctSize(prefix);
      AsMapKeys(prefix);
      assert written[|written| - 1].Key() !in AsMap(prefix) by {
        forall j | 0 <= j < |prefix| ensures prefix[j].Key() != written[|written| - 1].Key() {
          assert prefix[j] == written[j];
        }
      }
    }
  }

  /** A subset has at most as many elements, and a strict subset fewer. */
  lemma SubsetSize<T>(a: set<T>, c: set<T>)
    requires a <= c
    ensures |a| <= |c|
    ensures a < c ==> |a| < |c|
  {
    var d := c - a;
    assert c == a + d && a * d == {};
    if a < c {
      var x :| x in c && x !in a;
      assert x in d;
    }
  }

  /** Lines appended from a group add keys of the group to those already written. */
  lemma WrittenKeys(group: EntrySet, before: seq<PgPassEntry>, written: seq<PgPassEntry>)
    requires |before| <= |written| && written[..|before|] == before
    requires forall i :: |before| <= i < |written| ==> written[i].Key() in group
    ensures AsMap(before).Keys <= AsMap(written).Keys <= AsMap(before).Keys + group.Keys
  {
    AsMapKeys(before);
    AsMapKeys(written);
    forall k | k in AsMap(written) ensures k in AsMap(before) || k in group {
      var i :| 0 <= i < |written| && written[i].Key() == k;
      if i < |before| {
        assert written[..|before|][i] == written[i];
        assert before[i].Key() == k;
      }
    }
    forall k | k in AsMap(before) ensures k in AsMap(written) {
      var i :| 0 <= i < |before| && before[i].Key() == k;
      assert written[..|before|][i] == written[i];
      assert written[i].Key() == k;
    }
  }

  /** After `WriteGroup`, a file holding the whole group has one more line per entry, and one
      missing an entry of the group has fewer. */
  lemma GroupWrittenSize(group: EntrySet, before: seq<PgPassEntry>, written: seq<PgPassEntry>)
    requires DistinctKeys(before) && DistinctKeys(written) && group.Keys !! AsMap(before).Keys
    requires |before| <= |written| && written[..|before|] == before
    requires forall i :: |before| <= i < |written| ==> written[i].Key() in group
    ensures group.Keys <= AsMap(written).Keys ==> |written| == |before| + |group|
    ensures !(group.Keys <= AsMap(written).Keys) ==> |written| < |before| + |group|
  {
    var b, w := AsMap(before).Keys, AsMap(written).Keys;
    WrittenKeys(group, before, written);
    DistinctSize(before);
    DistinctSize(written);
    assert |b + group.Keys| == |before| + |group|;
    SubsetSize(w, b + group.Keys);
    if group.Keys <= w {
      assert w == b + group.Keys;
    }
  }

  /** Sets with disjoint keys: their union holds the entries of both. */
  lemma DisjointUnionSize(a: EntrySet, b: EntrySet)
    requires a.Keys !! b.Keys
    ensures |a + b| == |a| + |b|
  {
    assert (a + b).Keys == a.Keys + b.Keys;
  }

  // ---------------------------------------------------------------------------------------------
  // The command

  /** The `.pgpass` file: missing, or the lines the reader gets before it stops, and whether it
      stops on a read error. */
  datatype PgPassFile = Missing | Present(lines: seq<String>, readError: bool)

  /** The entries that a successful rewrite of `file` holds. */
  function Target(file: PgPassFile, satori: EntrySet): EntrySet
    requires file.Present? ==> PgPassFromFile(file.lines, file.readError).Read?
  {
    if file.Missing? then satori else MergedAsWritten(PgPassFromFile(file.lines, file.readError).entries, satori)
  }

  /** The entries of `part` are entries of `whole`. */
  predicate PartOf(part: EntrySet, whole: EntrySet) {
    forall k :: k in part ==> k in whole && whole[k] == part[k]
  }

  /** Each of the three groups holds its entries under their own keys. */
  lemma GroupsWellKeyed(existing: EntrySet, satori: EntrySet)
    requires WellKeyed(existing) && WellKeyed(satori)
    ensures WellKeyed(Difference(existing, satori)) && WellKeyed(Difference(satori, existing))
    ensures WellKeyed(IntersectionAsWritten(satori, existing))
  {
    IntersectionWellKeyed(satori, existing);
  }

  /** No key is in two of the three groups. */
  lemma GroupsDisjoint(existing: EntrySet, satori: EntrySet)
    ensures var g0, g1, g2 := Difference(existing, satori), Difference(satori, existing), IntersectionAsWritten(satori, existing);
      g0.Keys !! g1.Keys && g0.Keys !! g2.Keys && g1.Keys !! g2.Keys
  {
  }

  /** Written one after the other, the three groups make up the merge. */
  lemma GroupsMakeMerge(existing: EntrySet, satori: EntrySet)
    ensures Difference(existing, satori) + Difference(satori, existing) + IntersectionAsWritten(satori, existing)
      == MergedAsWritten(existing, satori)
  {
  }

  /** Whichever side the common entries come from, each sits under its own key. */
  lemma IntersectionWellKeyed(satori: EntrySet, existing: EntrySet)
    requires WellKeyed(existing) && WellKeyed(satori)
    ensures WellKeyed(IntersectionAsWritten(satori, existing))
  {
    var c := IntersectionAsWritten(satori, existing);
    if |satori| <= |existing| {
      forall k | k in c ensures c[k].Key() == k {
        assert c[k] == satori[k];
      }
    } else {
      forall k | k in c ensures c[k].Key() == k {
        assert c[k] == existing[k];
      }
    }
  }

  /** Three groups with disjoint keys written one after the other: the file ends up holding
      their union, or what was written before the first failing write. */
  method WriteThree(g0: EntrySet, g1: EntrySet, g2: EntrySet, writable: nat -> bool)
    returns (ok: bool, written: seq<PgPassEntry>)
    requires WellKeyed(g0) && WellKeyed(g1) && WellKeyed(g2)
    requires g0.Keys !! g1.Keys && g0.Keys !! g2.Keys && g1.Keys !! g2.Keys
    ensures DistinctKeys(written)
    ensures EntriesOf(written, g0 + g1 + g2)
    ensures ok ==> AsMap(written) == g0 + g1 + g2
    ensures InGroupOrder(written, g0, g1, g2)
    ensures AllWritable(|written|, writable)
    ensures ok <==> AllWritable(|g0 + g1 + g2|, writable)
    ensures !ok ==> !writable(|written|)
  {
    var all := g0 + g1 + g2;
    DisjointUnionSize(g0, g1);
    DisjointUnionSize(g0 + g1, g2);
    assert PartOf(g0, all) && PartOf(g1, all) && PartOf(g2, all);
    NothingWritten(g0);
    ok, written := WriteTurn(g0, [], all, g0, g1, g2, writable);
    if !ok {
      return;
    }
    ok, written := WriteTurn(g1, written, all, g0, g1, g2, writable);
    if !ok {
      return;
    }
    assert AsMap(written) == g0 + g1;
    ok, written := WriteTurn(g2, written, all, g0, g1, g2, writable);
  }

  /** `WritePart` for the group whose turn it is among `g0`, `g1` and `g2`: the lines stay in
      group order. */
  method WriteTurn(group: EntrySet, before: seq<PgPassEntry>, all: EntrySet,
                   g0: EntrySet, g1: EntrySet, g2: EntrySet, writable: nat -> bool)
    returns (ok: bool, written: seq<PgPassEntry>)
    requires WellKeyed(group) && DistinctKeys(before) && group.Keys !! AsMap(before).Keys
    requires EntriesOf(before, all) && PartOf(group, all) && |before| + |group| <= |all|
    requires InGroupOrder(before, g0, g1, g2)
    requires || (|before| == 0 && group == g0)
             || (|before| == |g0| && group == g1)
             || (|before| == |g0| + |g1| && group == g2)
    ensures DistinctKeys(written) && EntriesOf(written, all) && InGroupOrder(written, g0, g1, g2)
    ensures ok ==> AsMap(written) == AsMap(before) + group && |written| == |before| + |group|
    ensures AllWritable(|before|, writable) ==> AllWritable(|written|, writable)
    ensures !ok ==> !AllWritable(|all|, writable) && !writable(|written|)
  {
    ok, written := WritePart(group, before, all, writable);
    StaysInOrder(before, written, group, g0, g1, g2);
  }

  /** `written` continues `before` with entries of `group`, at most one line per entry. */
  predicate Appended(before: seq<PgPassEntry>, written: seq<PgPassEntry>, group: EntrySet) {
    && |before| <= |written| <= |before| + |group| && written[..|before|] == before
    && forall i :: |before| <= i < |written| ==> written[i].Key() in group && group[written[i].Key()] == written[i]
  }

  /** The lines hold the entries of `g0`, then those of `g1`, then those of `g2`: line `i` is an
      entry of the group whose lines cover position `i` once the groups before it are complete. */
  predicate InGroupOrder(written: seq<PgPassEntry>, g0: EntrySet, g1: EntrySet, g2: EntrySet) {
    && (forall i :: 0 <= i < |written| && i < |g0| ==> written[i].Key() in g0 && g0[written[i].Key()] == written[i])
    && (forall i :: |g0| <= i < |written| && i < |g0| + |g1| ==>
          written[i].Key() in g1 && g1[written[i].Key()] == written[i])
    && (forall i :: |g0| + |g1| <= i < |written| ==> written[i].Key() in g2 && g2[written[i].Key()] == written[i])
  }

  /** Appending entries of the group whose turn it is keeps the lines in group order. */
  lemma StaysInOrder(before: seq<PgPassEntry>, written: seq<PgPassEntry>, group: EntrySet,
                     g0: EntrySet, g1: EntrySet, g2: EntrySet)
    requires InGroupOrder(before, g0, g1, g2) && Appended(before, written, group)
    requires || (|before| == 0 && group == g0)
             || (|before| == |g0| && group == g1)
             || (|before| == |g0| + |g1| && group == g2)
    ensures InGroupOrder(written, g0, g1, g2)
  {
    forall i | 0 <= i < |before| ensures written[i] == before[i] {
      assert written[..|before|][i] == written[i];
    }
  }

  /** Once the file has as many lines as the user's own entries, those lines are exactly the
      user's entries: the Satori entries never come before them. */
  lemma UserEntriesFirst(written: seq<PgPassEntry>, g0: EntrySet, g1: EntrySet, g2: EntrySet)
    requires InGroupOrder(written, g0, g1, g2) && DistinctKeys(written) && WellKeyed(g0)
    requires |g0| <= |written|
    ensures AsMap(written[..|g0|]) == g0
  {
    var head := written[..|g0|];
    assert DistinctKeys(head) by {
      assert forall i :: 0 <= i < |head| ==> head[i] == written[i];
    }
    DistinctSize(head);
    AsMapKeys(head);
    assert AsMap(head).Keys <= g0.Keys by {
      forall k | k in AsMap(head) ensures k in g0 {
        var i :| 0 <= i < |head| && head[i].Key() == k;
        assert head[i] == written[i];
      }
    }
    SubsetSize(AsMap(head).Keys, g0.Keys);
    assert AsMap(head).Keys == g0.Keys;
    forall k | k in g0 ensures AsMap(head)[k] == g0[k] {
      var i :| 0 <= i < |head| && head[i].Key() == k;
      AsMapEntry(head, i);
      assert head[i] == written[i];
    }
  }

  /** `WriteGroup` as one of the loops that write the entries of `all`: its entries are entries
      of `all`, a complete group adds one line per entry, and a failure inside the group is a
      failure before the end of the file. */
  method WritePart(group: EntrySet, before: seq<PgPassEntry>, all: EntrySet, writable: nat -> bool)
    returns (ok: bool, written: seq<PgPassEntry>)
    requires WellKeyed(group) && DistinctKeys(before) && group.Keys !! AsMap(before).Keys
    requires EntriesOf(before, all) && PartOf(group, all) && |before| + |group| <= |all|
    ensures DistinctKeys(written) && EntriesOf(written, all) && Appended(before, written, group)
    ensures ok ==> AsMap(written) == AsMap(before) + group && |written| == |before| + |group|
    ensures AllWritable(|before|, writable) ==> AllWritable(|written|, writable)
    ensures !ok ==> !AllWritable(|all|, writable) && !writable(|written|)
  {
    ok, written := WriteGroup(group, before, writable);
    Stage(group, before, written, all, ok, writable);
  }

  /** The set of no lines is empty, so writing a group from the start leaves just the group. */
  lemma NothingWritten(group: EntrySet)
    ensures AsMap([]) + group == group
  {
    assert AsMap([]) == map[];
    assert (map[] + group).Keys == group.Keys;
  }

  /** What one call of `WriteGroup` on top of `before` contributes to writing all of `all`:
      its entries are entries of `all`, every line so far went through, a complete group adds
      one line per entry, and a failure inside the group is a failure before the file's end. */
  lemma Stage(group: EntrySet, before: seq<PgPassEntry>, written: seq<PgPassEntry>, all: EntrySet,
              ok: bool, writable: nat -> bool)
    requires DistinctKeys(before) && group.Keys !! AsMap(before).Keys
    requires EntriesOf(before, all) && PartOf(group, all) && |before| + |group| <= |all|
    requires |before| <= |written| && written[..|before|] == before
    requires DistinctKeys(written)
    requires forall i :: |before| <= i < |written| ==> written[i].Key() in group && group[written[i].Key()] == written[i]
    requires ok ==> AsMap(written) == AsMap(before) + group
    requires forall n :: |before| <= n < |written| ==> writable(n)
    requires !ok ==> !(group.Keys <= AsMap(written).Keys) && !writable(|written|)
    ensures EntriesOf(written, all)
    ensures AllWritable(|before|, writable) ==> AllWritable(|written|, writable)
    ensures ok ==> |written| == |before| + |group|
    ensures !ok ==> |written| < |before| + |group| && !AllWritable(|all|, writable)
  {
    ExtendEntries(before, written, group, all);
    GroupWrittenSize(group, before, written);
  }

  /** The writes of the first `count` lines all succeed. */
  predicate AllWritable(count: nat, writable: nat -> bool) {
    forall n :: 0 <= n < count ==> writable(n)
  }

  /** Every written entry is the entry `target` holds for its key. */
  predicate EntriesOf(written: seq<PgPassEntry>, target: EntrySet) {
    forall i :: 0 <= i < |written| ==> written[i].Key() in target && target[written[i].Key()] == written[i]
  }

  /** Appending entries of a part of `target` keeps every entry one of `target`'s. */
  lemma ExtendEntries(before: seq<PgPassEntry>, written: seq<PgPassEntry>, group: EntrySet, target: EntrySet)
    requires EntriesOf(before, target) && PartOf(group, target)
    requires |before| <= |written| && written[..|before|] == before
    requires forall i :: |before| <= i < |written| ==> written[i].Key() in group && group[written[i].Key()] == written[i]
    ensures EntriesOf(written, target)
  {
    forall i | 0 <= i < |before| ensures written[i] == before[i] {
      assert written[..|before|][i] == written[i];
    }
  }

  /** The file once the command has written `written`, meant to hold `target`: its lines, keys
      appearing once, every line an entry of `target`, all of `target` when every write went
      through, and then, for clean entries, a file that reads back as `target`. */
  predicate Rewritten(after: PgPassFile, written: seq<PgPassEntry>, target: EntrySet, complete: bool) {
    && after == Present(Displays(written), false)
    && DistinctKeys(written)
    && EntriesOf(written, target)
    && (complete ==> AsMap(written) == target)
    && (complete && AllClean(target) ==> PgPassFromFile(after.lines, after.readError) == Read(target))
  }

  /** The file after the writes. */
  method Finish(ok: bool, written: seq<PgPassEntry>, target: EntrySet) returns (after: PgPassFile)
    requires DistinctKeys(written) && EntriesOf(written, target)
    requires ok ==> AsMap(written) == target
    ensures Rewritten(after, written, target, ok)
  {
    after := Present(Displays(written), false);
    if ok && AllClean(target) {
      WrittenClean(written, target);
      RereadWritten(written);
    }
  }

  /** The command gets as far as writing: the login succeeds, and an existing file opens, reads,
      parses and truncates, or a missing one is created. */
  predicate Proceeds(login: Result<(Credentials, DatastoresInfo), LoginFlow.LoginError>, file: PgPassFile,
                     opens: bool, truncates: bool, creates: bool) {
    && login.Ok?
    && (file.Present? ==> opens && PgPassFromFile(file.lines, file.readError).Read? && truncates)
    && (file.Missing? ==> creates)
  }

  /** `run`: log in, build the Satori entries, then either rewrite the existing file with the
      merge of its entries and the Satori ones, or create the file with the Satori entries.

      `login` is the result of `run_with_file`. For an existing file, `opens` says whether it
      opens for reading and writing and `truncates` whether rewinding and truncating it succeed
      (their `unwrap` panics otherwise); for a missing one, `creates` says whether it can be
      created. The write of line `n` succeeds when `writable(n)`. `after` is the file once the
      command ends, `written` the entries whose lines it then holds. */
  method Run(login: Result<(Credentials, DatastoresInfo), LoginFlow.LoginError>, file: PgPassFile,
             opens: bool, truncates: bool, creates: bool, writable: nat -> bool)
    returns (outcome: ToolOutcome, after: PgPassFile, written: seq<PgPassEntry>)
    ensures login.Err? ==> outcome == Completed(Err(LoginError(login.error))) && after == file
    ensures login.Ok? && file.Present? && !opens ==> outcome == Completed(Err(FailedToOpenPgpassFile)) && after == file
    ensures login.Ok? && file.Present? && opens ==>
      var read := PgPassFromFile(file.lines, file.readError);
      && (read.ParsePanic? ==> outcome == Panicked && after == file)
      && (read.ReadFailed? ==> outcome == Completed(Err(ReadLineError)) && after == file)
      && (read.Read? && !truncates ==> outcome == Panicked && after == file)
    ensures login.Ok? && file.Missing? && !creates ==> outcome == Completed(Err(FailedToCreatePgpassFile)) && after == file
    ensures Proceeds(login, file, opens, truncates, creates) <==>
      outcome == Completed(Ok(())) || outcome == Completed(Err(FailedWritingToPgpassFile))
    ensures outcome == Completed(Ok(())) <==>
      && Proceeds(login, file, opens, truncates, creates)
      && AllWritable(|Target(file, PgPassFromSatoriDb(login.value.1, login.value.0))|, writable)
    ensures Proceeds(login, file, opens, truncates, creates) ==>
      && Rewritten(after, written, Target(file, PgPassFromSatoriDb(login.value.1, login.value.0)), outcome.result.Ok?)
      && AllWritable(|written|, writable)
      && (outcome.result.Err? ==> !writable(|written|))
    // the user's own entries first, then the new Satori entries, then the common ones
    ensures Proceeds(login, file, opens, truncates, creates) && file.Present? ==>
      var existing := PgPassFromFile(file.lines, file.readError).entries;
      var satori := PgPassFromSatoriDb(login.value.1, login.value.0);
      InGroupOrder(written, Difference(existing, satori), Difference(satori, existing), IntersectionAsWritten(satori, existing))
  {
    written := [];
    after := file;
    if login.Err? {
      return Completed(Err(LoginError(login.error))), after, written;
    }
    var (credentials, info) := login.value;
    var satori := PgPassFromSatoriDb(info, credentials);
    var ok;
    var target;
    if file.Present? {
      if !opens {
        return Completed(Err(FailedToOpenPgpassFile)), after, written;
      }
      var read := PgPassFromFile(file.lines, file.readError);
      if read.ParsePanic? {
        return Panicked, after, written;
      } else if read.ReadFailed? {
        return Completed(Err(ReadLineError)), after, written;
      }
      if !truncates {
        return Panicked, after, written;
      }
      GroupsWellKeyed(read.entries, satori);
      GroupsDisjoint(read.entries, satori);
      GroupsMakeMerge(read.entries, satori);
      ok, written := WriteThree(Difference(read.entries, satori), Difference(satori, read.entries),
                                IntersectionAsWritten(satori, read.entries), writable);
      target := MergedAsWritten(read.entries, satori);
    } else {
      if !creates {
        return Completed(Err(FailedToCreatePgpassFile)), after, written;
      }
      assert PartOf(satori, satori);
      assert AllWritable(0, writable);
      ok, written := WritePart(satori, [], satori, writable);
      target := satori;
    }
    assert target == Target(file, satori);
    after := Finish(ok, written, target);
    outcome := if ok then Completed(Ok(())) else Completed(Err(FailedWritingToPgpassFile));
  }

  /** With clean Satori entries the target of a rewrite is clean: the entries parsed from the
      file always are. */
  lemma TargetClean(file: PgPassFile, satori: EntrySet)
    requires file.Present? ==> PgPassFromFile(file.lines, file.readError).Read?
    requires AllClean(satori)
    ensures AllClean(Target(file, satori))
  {
    if file.Present? {
      var existing := PgPassFromFile(file.lines, file.readError).entries;
      var m := MergedAsWritten(existing, satori);
      forall k | k in m ensures Clean(m[k]) {
        MergedAsWrittenEntries(existing, satori, k);
      }
    }
  }

  /** Entries taken from a clean set are clean. */
  lemma WrittenClean(written: seq<PgPassEntry>, target: EntrySet)
    requires AllClean(target) && EntriesOf(written, target)
    ensures forall i :: 0 <= i < |written| ==> Clean(written[i])
  {
  }
}
