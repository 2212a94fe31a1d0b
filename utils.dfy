/** The helpers of the agent core: discovery of addon directories, the crash-dump
    record, the lock-dependency filter and the default callback header. */
module Utils {
  import opened Js
  import opened Messages

  // ---------------------------------------------------------------------
  // searchForAddons

  const ROOT_TYPE_ERROR: string := "utils.searchForAddons->root should be typeof <string>"

  /** One entry of the `addons` directory listing: its name, whether `lstat`
      reports a directory, and whether its `index.js` is readable and executable. */
  datatype Entry = Entry(name: string, isDirectory: bool, hasIndex: bool)

  /** The empty record each discovered addon is mapped to. */
  datatype EmptyRecord = EmptyRecord

  predicate IsAddonDir(e: Entry)
  {
    e.isDirectory && e.hasIndex
  }

  /** Names of the listing's entries that qualify as addons. */
  function AddonNames(listing: seq<Entry>): set<string>
  {
    set e | e in listing && IsAddonDir(e) :: e.name
  }

  /** Searches the root's `addons` directory for addons. `rootFiles` is the
      listing of `root` and `listing` the listing of `root/addons`. */
  method SearchForAddons(root: Value, rootFiles: set<string>, listing: seq<Entry>)
    returns (r: Result<map<string, EmptyRecord>, Failure>)
    ensures !root.Str? ==> r == Err(TypeError(ROOT_TYPE_ERROR))
    ensures root.Str? && "addons" !in rootFiles ==> r == Ok(map[])
    ensures root.Str? && "addons" in rootFiles ==> r.Ok? && r.value.Keys == AddonNames(listing)
  {
    if !root.Str? {
      return Err(TypeError(ROOT_TYPE_ERROR));
    }
    if "addons" !in rootFiles {
      return Ok(map[]);
    }
    var ret: map<string, EmptyRecord> := map[];
    var i := 0;
    while i < |listing|
      invariant 0 <= i <= |listing|
      invariant ret.Keys == AddonNames(listing[..i])
    {
      var entry := listing[i];
      assert listing[..i + 1] == listing[..i] + [entry];
      if entry.isDirectory && entry.hasIndex {
        ret := ret[entry.name := EmptyRecord];
      }
      i := i + 1;
    }
    assert listing[..i] == listing;
    return Ok(ret);
  }

  // ---------------------------------------------------------------------
  // generateDump

  /** The `stack` field of a dump: the empty string, or the stack split in lines. */
  datatype Stack = NoStack | Lines(lines: seq<string>)

  /** The JSON document of a crash dump, without its formatted date. */
  datatype DumpRecord = DumpRecord(code: Value, message: Value, stack: Stack)

  /** The dump record of a thrown value; None where building it throws itself
      (a null or undefined error, or a truthy stack that is not a string). */
  function MakeDump(error: Value): (r: Option<DumpRecord>)
    ensures r.None? <==>
      IsNullOrUndefined(error) || (Truthy(Get(error, "stack")) && !Get(error, "stack").Str?)
    ensures r.Some? ==> (r.value.code == Null <==> !Truthy(Get(error, "code")))
    ensures r.Some? && Truthy(Get(error, "code")) ==> r.value.code == Get(error, "code")
    ensures r.Some? && error.Str? ==> r.value.message == error
    ensures r.Some? && !error.Str? ==>
      r.value.message == (if Truthy(Get(error, "message")) then Get(error, "message") else Str(""))
    ensures r.Some? ==> (r.value.stack.Lines? <==> Truthy(Get(error, "stack")))
    ensures r.Some? && r.value.stack.Lines? ==>
      && |r.value.stack.lines| >= 1
      && Join(r.value.stack.lines, '\n') == Get(error, "stack").s
      && forall i :: 0 <= i < |r.value.stack.lines| ==> '\n' !in r.value.stack.lines[i]
  {
    if IsNullOrUndefined(error) then None
    else
      var code := Get(error, "code");
      var message := Get(error, "message");
      var stack := Get(error, "stack");
      if Truthy(stack) && !stack.Str? then None
      else
        var c := if Truthy(code) then code else Null;
        var m := if error.Str? then error else if Truthy(message) then message else Str("");
        if Truthy(stack) then
          JoinSplit(stack.s, '\n');
          Some(DumpRecord(c, m, Lines(Split(stack.s, '\n'))))
        else
          Some(DumpRecord(c, m, NoStack))
  }

  const DUMP_DIR: string := "/debug/debug_"
  const DUMP_EXT: string := ".json"

  /** The file a dump taken at `timestamp` (milliseconds) is written to. */
  function DumpPath(root: string, timestamp: nat): (p: string)
    ensures |p| == |root| + |DUMP_DIR| + |Decimal(timestamp)| + |DUMP_EXT|
    ensures p[..|root|] == root
    ensures p[|root|..|root| + |DUMP_DIR|] == DUMP_DIR
    ensures p[|p| - |DUMP_EXT|..] == DUMP_EXT
  {
    root + DUMP_DIR + Decimal(timestamp) + DUMP_EXT
  }

  /** The timestamp can be read back from the dump file name. */
  lemma DumpPathTimestamp(root: string, timestamp: nat)
    ensures var p := DumpPath(root, timestamp);
      ParseDecimal(p[|root| + |DUMP_DIR|..|p| - |DUMP_EXT|]) == timestamp
  {
    var p := DumpPath(root, timestamp);
    assert p[|root| + |DUMP_DIR|..|p| - |DUMP_EXT|] == Decimal(timestamp);
    DecimalRoundTrip(timestamp);
  }

  /** generateDump(root, error): the path it returns, with the record it writes
      there; it throws, returning no path, when the record cannot be built. */
  function GenerateDump(root: string, error: Value, timestamp: nat): (r: Result<(string, DumpRecord), Failure>)
    ensures r.Ok? <==> MakeDump(error).Some?
    ensures r.Ok? ==> r.value == (DumpPath(root, timestamp), MakeDump(error).value)
    ensures r.Err? ==> r.error == EngineTypeError
  {
    match MakeDump(error)
    case Some(record) => Ok((DumpPath(root, timestamp), record))
    case None => Err(EngineTypeError)
  }

  /** The dump of an empty error object, as the project's own tests expect it. */
  lemma EmptyDumpExample()
    ensures MakeDump(Obj(map[])) == Some(DumpRecord(Null, Str(""), NoStack))
  {
  }

  // ---------------------------------------------------------------------
  // searchForLockedAddons

  /** What the filter reads of a registered addon: its name and lock set. */
  datatype Locking = Locking(name: string, locks: set<string>)

  /** The names of the addons, in registry order, whose locks contain `addonName`. */
  function SearchForLockedAddons(addons: seq<Locking>, addonName: string): (r: seq<string>)
    ensures |r| <= |addons|
    ensures forall x :: x in r ==> exists a :: a in addons && a.name == x && addonName in a.locks
  {
    if addons == [] then []
    else (if addonName in addons[0].locks then [addons[0].name] else [])
         + SearchForLockedAddons(addons[1..], addonName)
  }

  function Names(addons: seq<Locking>): seq<string>
  {
    if addons == [] then [] else [addons[0].name] + Names(addons[1..])
  }

  /** `sub` keeps some of the elements of `s`, in their order. */
  predicate IsSubsequence(sub: seq<string>, s: seq<string>)
  {
    if sub == [] then true
    else if s == [] then false
    else if sub[0] == s[0] then IsSubsequence(sub[1..], s[1..]) || IsSubsequence(sub, s[1..])
    else IsSubsequence(sub, s[1..])
  }

  /** Every addon whose locks contain `addonName` is yielded. */
  lemma {:induction false} LockedComplete(addons: seq<Locking>, addonName: string, k: nat)
    requires k < |addons| && addonName in addons[k].locks
    ensures addons[k].name in SearchForLockedAddons(addons, addonName)
  {
    if k > 0 {
      LockedComplete(addons[1..], addonName, k - 1);
    }
  }

  /** The result keeps registry order. */
  lemma {:induction false} LockedInOrder(addons: seq<Locking>, addonName: string)
    ensures IsSubsequence(SearchForLockedAddons(addons, addonName), Names(addons))
  {
    if addons != [] {
      LockedInOrder(addons[1..], addonName);
      var rest := SearchForLockedAddons(addons[1..], addonName);
      var names := Names(addons);
      assert names == [addons[0].name] + Names(addons[1..]);
      assert names[1..] == Names(addons[1..]);
      if addonName in addons[0].locks {
        var r := SearchForLockedAddons(addons, addonName);
        assert r == [addons[0].name] + rest;
        assert r[0] == names[0] && r[1..] == rest;
      } else {
        assert SearchForLockedAddons(addons, addonName) == rest;
        SubsequenceOfTail(rest, addons[0].name, Names(addons[1..]));
      }
    }
  }

  lemma {:induction false} SubsequenceOfTail(sub: seq<string>, x: string, s: seq<string>)
    requires IsSubsequence(sub, s)
    ensures IsSubsequence(sub, [x] + s)
  {
  }

  /** When registered names are distinct, each locked addon is yielded once. */
  lemma {:induction false} LockedOnce(addons: seq<Locking>, addonName: string)
    requires Distinct(Names(addons))
    ensures Distinct(SearchForLockedAddons(addons, addonName))
  {
    if addons != [] {
      var names := Names(addons);
      assert names == [addons[0].name] + Names(addons[1..]);
      assert Distinct(Names(addons[1..])) by {
        forall i, j | 0 <= i < j < |Names(addons[1..])|
          ensures Names(addons[1..])[i] != Names(addons[1..])[j]
        {
          assert names[i + 1] == Names(addons[1..])[i];
          assert names[j + 1] == Names(addons[1..])[j];
        }
      }
      LockedOnce(addons[1..], addonName);
      var rest := SearchForLockedAddons(addons[1..], addonName);
      if addonName in addons[0].locks {
        forall x | x in rest ensures x != addons[0].name {
          var a :| a in addons[1..] && a.name == x && addonName in a.locks;
          NameIn(addons[1..], a);
          var j :| 0 <= j < |Names(addons[1..])| && Names(addons[1..])[j] == x;
          assert names[j + 1] == x && names[0] == addons[0].name;
        }
        var r := [addons[0].name] + rest;
        forall i, j | 0 <= i < j < |r| ensures r[i] != r[j] {
          if i == 0 {
            assert r[j] == rest[j - 1] && rest[j - 1] in rest;
          } else {
            assert r[i] == rest[i - 1] && r[j] == rest[j - 1];
          }
        }
      }
    }
  }

  lemma {:induction false} NameIn(addons: seq<Locking>, a: Locking)
    requires a in addons
    ensures a.name in Names(addons)
  {
    if addons[0] != a {
      NameIn(addons[1..], a);
    }
  }

  // ---------------------------------------------------------------------
  // defaultHeader

  /** The header of a callback the core itself issues: `{from: "core", id}`. */
  function DefaultHeader(freshId: string): (h: Header)
    ensures h.from == "core" && h.id == freshId
  {
    Header("core", freshId)
  }
}
