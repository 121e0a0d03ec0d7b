/** jit::DeviceInfoCache: interns device names into dense ids, assigned in the order
    the names are first seen, and remembers per id the device type, whether it
    is a CPU or a GPU, and its XLA compilation device.

    The two services the cache consults are calls into other libraries and are
    passed in as functions:
    - `parse` stands for DeviceNameToDeviceType: the type string of a full device
      name, or None when the name does not parse;
    - `registry` stands for XlaOpRegistry::GetCompilationDevice: the compilation
      device registered for a device type, or None. */
module DeviceInfoCaches {
  import opened Status
  import opened DeviceSets

  /** DEVICE_CPU and DEVICE_GPU. */
  const DeviceCpu: string := "CPU"
  const DeviceGpu: string := "GPU"

  /** XlaOpRegistry::DeviceRegistration, reduced to the name of the device that
      compiles for it. The cache only stores a pointer to it. */
  datatype DeviceRegistration = DeviceRegistration(compilationDeviceName: string)

  // ---------------------------------------------------------------------------
  // Rendering of name lists (absl::StrJoin and absl::StrCat in DebugString)

  /** The parts joined with `sep` between neighbours. */
  function Join(parts: seq<string>, sep: string): (r: string)
    ensures parts == [] ==> r == []
    ensures |parts| == 1 ==> r == parts[0]
  {
    if parts == [] then []
    else if |parts| == 1 then parts[0]
    else parts[0] + sep + Join(parts[1..], sep)
  }

  /** The joined text of two or more parts is longer than its first part plus
      one separator. */
  lemma {:induction false} JoinLonger(parts: seq<string>, sep: string)
    requires |parts| >= 2
    ensures |Join(parts, sep)| >= |parts[0]| + |sep|
  {
  }

  /** Joining two non-empty runs of parts puts one separator between the last
      part of the first run and the first part of the second: the separator
      stands between every pair of neighbours. */
  lemma {:induction false} JoinAppend(a: seq<string>, b: seq<string>, sep: string)
    requires a != [] && b != []
    ensures Join(a + b, sep) == Join(a, sep) + sep + Join(b, sep)
    decreases |a|
  {
    if |a| == 1 {
      assert (a + b)[1..] == b;
    } else {
      assert (a + b)[1..] == a[1..] + b;
      JoinAppend(a[1..], b, sep);
    }
  }

  /** GetNameFor: the name of `id`; an id without an entry in `names` never occurs
      where this is used. */
  function NameFor(names: seq<string>, id: nat): string
  {
    if id < |names| then names[id] else ""
  }

  /** The names of `ids`, in order. */
  function NamesOf(names: seq<string>, ids: seq<nat>): (r: seq<string>)
    ensures |r| == |ids|
    ensures forall i :: 0 <= i < |ids| ==> r[i] == NameFor(names, ids[i])
  {
    if ids == [] then [] else NamesOf(names, ids[..|ids| - 1]) + [NameFor(names, ids[|ids| - 1])]
  }

  /** Enumerating one more id appends its name when it is a member. */
  lemma NamesOfNext(names: seq<string>, s: seq<Word>, id: nat)
    ensures NamesOf(names, MembersBelow(s, id + 1)) ==
      NamesOf(names, MembersBelow(s, id)) + if InStorage(s, id) then [NameFor(names, id)] else []
  {
    var below := MembersBelow(s, id);
    if InStorage(s, id) {
      assert (below + [id])[..|below|] == below;
    }
  }

  /** Every member of the set whose storage is `s` has an entry in `names`. */
  ghost predicate Named(names: seq<string>, s: seq<Word>)
  {
    forall id: nat :: InStorage(s, id) ==> id < |names|
  }

  /** "[" + the names joined by "," + "]". */
  function Bracketed(parts: seq<string>): string
  {
    "[" + Join(parts, ",") + "]"
  }

  /** What DebugString produces as written: ForEach stops as soon as the callback
      returns false, and the callback returns false after the first name, so only
      the lowest id of the set is listed. */
  ghost function ListedAsWritten(names: seq<string>, s: seq<Word>): string
    requires Named(names, s)
  {
    var ids := Members(s);
    Bracketed(NamesOf(names, if ids == [] then [] else [ids[0]]))
  }

  /** What DebugString is evidently meant to produce: every member's name, in
      ascending id order. */
  ghost function Listed(names: seq<string>, s: seq<Word>): string
    requires Named(names, s)
  {
    Bracketed(NamesOf(names, Members(s)))
  }

  /** When `id` is the lowest member, DebugString as written lists its name alone. */
  lemma ListedAsWrittenFirst(names: seq<string>, s: seq<Word>, id: nat)
    requires Named(names, s)
    requires InStorage(s, id) && MembersBelow(s, id) == []
    ensures id < |names|
    ensures ListedAsWritten(names, s) == Bracketed([names[id]])
  {
    MembersInRange(s, id);
    MembersBelowPrefix(s, id + 1, |s| * WordSize);
    assert MembersBelow(s, id + 1) == [id];
    assert Members(s)[0] == id;
  }

  /** The two agree exactly when the set has at most one member. */
  lemma ListedAsWrittenDropsNames(names: seq<string>, s: seq<Word>)
    requires Named(names, s)
    ensures ListedAsWritten(names, s) == Listed(names, s) <==> |Members(s)| <= 1
  {
    var ids := Members(s);
    if |ids| >= 2 {
      var all := NamesOf(names, ids);
      JoinLonger(all, ",");
      assert |ListedAsWritten(names, s)| == |all[0]| + 2;
    }
  }

  // ---------------------------------------------------------------------------
  // The cache's tables, as values

  /** The six members of a DeviceInfoCache: names_, id_to_device_type_, is_cpu_,
      is_gpu_, name_to_id_ and id_to_compilation_device_ (None for a null pointer). */
  datatype Tables = Tables(
    names: seq<string>,
    deviceTypes: seq<string>,
    isCpu: seq<bool>,
    isGpu: seq<bool>,
    nameToId: map<string, nat>,
    compilationDevices: seq<Option<DeviceRegistration>>)

  /** A cache nothing has been interned in. */
  const NoTables := Tables([], [], [], [], map[], [])

  /** Every interned name is non-empty and maps to an id whose entry in `names`
      is that name. */
  ghost predicate Interned(names: seq<string>, nameToId: map<string, nat>)
  {
    forall n :: n in nameToId ==> n != [] && nameToId[n] < |names| && names[nameToId[n]] == n
  }

  /** Every entry of `names` is interned under its own id. */
  ghost predicate Dense(names: seq<string>, nameToId: map<string, nat>)
  {
    forall i :: 0 <= i < |names| ==> names[i] in nameToId && nameToId[names[i]] == i
  }

  /** The two flags of each id that has flags say whether its type string is CPU
      or GPU. */
  ghost predicate Classified(types: seq<string>, isCpu: seq<bool>, isGpu: seq<bool>)
  {
    && |isCpu| == |isGpu| <= |types|
    && forall i :: 0 <= i < |isCpu| ==>
         isCpu[i] == (types[i] == DeviceCpu) && isGpu[i] == (types[i] == DeviceGpu)
  }

  /** What holds after any sequence of GetIdFor calls: names_ and
      id_to_device_type_ grow together, the other three vectors grow together and
      never get ahead of names_, and every interned name maps to its own entry. */
  ghost predicate Valid(t: Tables)
  {
    && |t.deviceTypes| == |t.names|
    && |t.isGpu| == |t.isCpu| && |t.compilationDevices| == |t.isCpu| && |t.isCpu| <= |t.names|
    && Interned(t.names, t.nameToId)
  }

  /** What holds as long as no name failed to parse: every vector has exactly one
      entry per id, every entry of names_ is interned under its own id, and the
      flags of an id agree with its type string. */
  ghost predicate Aligned(t: Tables)
  {
    && Valid(t)
    && |t.isCpu| == |t.names|
    && Dense(t.names, t.nameToId)
    && Classified(t.deviceTypes, t.isCpu, t.isGpu)
  }

  /** GetIdFor as written, on values: the result and the tables afterwards. A new
      name is appended to names_ and id_to_device_type_ (with an empty type)
      before it is parsed, and stays there when the parse fails. */
  function Intern(t: Tables, name: string, parse: string -> Option<string>,
                  registry: string -> Option<DeviceRegistration>): (Result<nat>, Tables)
  {
    if name == [] then (Failure(EmptyDeviceName), t)
    else if name in t.nameToId then (Success(t.nameToId[name]), t)
    else
      var newId := |t.names|;
      var grown := t.(names := t.names + [name], deviceTypes := t.deviceTypes + [""]);
      match parse(name)
      case None => (Failure(MalformedAssignedDevice(name)), grown)
      case Some(deviceType) =>
        (Success(newId), grown.(
          deviceTypes := t.deviceTypes + [deviceType],
          isCpu := t.isCpu + [deviceType == DeviceCpu],
          isGpu := t.isGpu + [deviceType == DeviceGpu],
          nameToId := t.nameToId[name := newId],
          compilationDevices := t.compilationDevices + [registry(deviceType)]))
  }

  /** GetIdFor as evidently intended: a name that does not parse leaves the
      tables as they were; otherwise the same as Intern. */
  function InternParsedFirst(t: Tables, name: string, parse: string -> Option<string>,
                             registry: string -> Option<DeviceRegistration>): (Result<nat>, Tables)
  {
    if name != [] && name !in t.nameToId && parse(name).None? then
      (Failure(MalformedAssignedDevice(name)), t)
    else
      Intern(t, name, parse, registry)
  }

  /** Appending a name without interning it keeps the interned names valid. */
  lemma InternedGrow(names: seq<string>, nameToId: map<string, nat>, name: string)
    requires Interned(names, nameToId)
    ensures Interned(names + [name], nameToId)
  {
    forall n | n in nameToId ensures (names + [name])[nameToId[n]] == n {
      assert names[nameToId[n]] == n;
    }
  }

  /** Appending and interning a new non-empty name under the next id keeps the
      interned names valid, and dense if they were. */
  lemma InternedAdd(names: seq<string>, nameToId: map<string, nat>, name: string)
    requires Interned(names, nameToId) && name != [] && name !in nameToId
    ensures Interned(names + [name], nameToId[name := |names|])
    ensures Dense(names, nameToId) ==> Dense(names + [name], nameToId[name := |names|])
  {
    InternedGrow(names, nameToId, name);
    if Dense(names, nameToId) {
      forall i | 0 <= i < |names| ensures names[i] != name {
        assert names[i] in nameToId;
      }
    }
  }

  /** Every call keeps the tables valid, whatever the parser says. */
  lemma InternKeepsValid(t: Tables, name: string, parse: string -> Option<string>,
                         registry: string -> Option<DeviceRegistration>)
    requires Valid(t)
    ensures Valid(Intern(t, name, parse, registry).1)
  {
    if name != [] && name !in t.nameToId {
      InternedGrow(t.names, t.nameToId, name);
      InternedAdd(t.names, t.nameToId, name);
    }
  }

  /** A call that succeeds keeps aligned tables aligned. */
  lemma InternKeepsAligned(t: Tables, name: string, parse: string -> Option<string>,
                           registry: string -> Option<DeviceRegistration>)
    requires Aligned(t)
    requires Intern(t, name, parse, registry).0.Success?
    ensures Aligned(Intern(t, name, parse, registry).1)
  {
    if name !in t.nameToId {
      InternedAdd(t.names, t.nameToId, name);
    }
  }

  /** The outcome of each path: an empty name is an error and changes nothing; a
      known name yields its id and changes nothing; a new name gets the next id,
      so ids are dense and handed out in first-seen order, and every vector gets
      exactly the new id's entry appended; a name that does not parse is an
      error after names_ and id_to_device_type_ (with an empty type) have grown,
      and nothing else has changed. */
  lemma InternOutcome(t: Tables, name: string, parse: string -> Option<string>,
                      registry: string -> Option<DeviceRegistration>)
    requires Valid(t)
    ensures var (r, u) := Intern(t, name, parse, registry);
      && (name == [] ==> r == Failure(EmptyDeviceName) && u == t)
      && (name != [] && name in t.nameToId ==> r == Success(t.nameToId[name]) && u == t)
      && (name != [] && name !in t.nameToId ==>
            && u.names == t.names + [name]
            && (r.Success? <==> parse(name).Some?)
            && (parse(name).None? ==>
                  (&& r == Failure(MalformedAssignedDevice(name))
                   && u.deviceTypes == t.deviceTypes + [""]
                   && u.isCpu == t.isCpu && u.isGpu == t.isGpu && u.nameToId == t.nameToId
                   && u.compilationDevices == t.compilationDevices))
            && (parse(name).Some? ==>
                  var deviceType := parse(name).value;
                  (&& r == Success(|t.names|)
                   && (forall n :: n in t.nameToId ==> t.nameToId[n] != r.value)
                   && u.deviceTypes == t.deviceTypes + [deviceType]
                   && u.isCpu == t.isCpu + [deviceType == DeviceCpu]
                   && u.isGpu == t.isGpu + [deviceType == DeviceGpu]
                   && u.nameToId == t.nameToId[name := |t.names|]
                   && u.compilationDevices == t.compilationDevices + [registry(deviceType)])))
  {
    if name != [] && name !in t.nameToId {
      forall n | n in t.nameToId ensures t.nameToId[n] != |t.names| {
      }
    }
  }

  /** `u` extends `t` as an append-only table: every vector of `t` is a prefix of
      the one in `u`, and every name interned in `t` keeps its id. */
  ghost predicate Extends(t: Tables, u: Tables)
  {
    && t.names <= u.names && t.deviceTypes <= u.deviceTypes
    && t.isCpu <= u.isCpu && t.isGpu <= u.isGpu
    && t.compilationDevices <= u.compilationDevices
    && forall n :: n in t.nameToId ==> n in u.nameToId && u.nameToId[n] == t.nameToId[n]
  }

  /** Every call only appends: earlier entries and ids never change. (The type
      entry written for a new id is first the empty string and then the parsed
      type, but only within the call.) */
  lemma InternAppendOnly(t: Tables, name: string, parse: string -> Option<string>,
                         registry: string -> Option<DeviceRegistration>)
    requires Valid(t)
    ensures Extends(t, Intern(t, name, parse, registry).1)
  {
    InternOutcome(t, name, parse, registry);
  }

  /** The tables after GetIdFor has been called with each name of `calls` in turn. */
  function InternAll(t: Tables, calls: seq<string>, parse: string -> Option<string>,
                     registry: string -> Option<DeviceRegistration>): Tables
    decreases |calls|
  {
    if calls == [] then t
    else InternAll(Intern(t, calls[0], parse, registry).1, calls[1..], parse, registry)
  }

  /** Over any sequence of calls the tables stay valid and only grow, so a name
      that has an id keeps it: asking for it again after any other calls returns
      the same id. */
  lemma {:induction false} InternAllKeepsIds(t: Tables, calls: seq<string>, name: string,
                                             parse: string -> Option<string>,
                                             registry: string -> Option<DeviceRegistration>)
    requires Valid(t)
    ensures var u := InternAll(t, calls, parse, registry);
      && Valid(u) && Extends(t, u)
      && (name in t.nameToId ==> Intern(u, name, parse, registry) == (Success(t.nameToId[name]), u))
    decreases |calls|
  {
    if calls != [] {
      var next := Intern(t, calls[0], parse, registry).1;
      InternKeepsValid(t, calls[0], parse, registry);
      InternAppendOnly(t, calls[0], parse, registry);
      InternAllKeepsIds(next, calls[1..], name, parse, registry);
    }
  }

  /** In valid tables, different names have different ids, whatever the history
      that built them. */
  lemma InternedInjective(t: Tables, a: string, b: string)
    requires Valid(t) && a in t.nameToId && b in t.nameToId && a != b
    ensures t.nameToId[a] != t.nameToId[b]
  {
    assert t.names[t.nameToId[a]] == a && t.names[t.nameToId[b]] == b;
  }

  /** On aligned tables the entries stored for a newly interned id describe it:
      its flags say whether its type is CPU or GPU, so never both, and its
      compilation device is null exactly when the registry has none. */
  lemma InternClassifies(t: Tables, name: string, parse: string -> Option<string>,
                         registry: string -> Option<DeviceRegistration>)
    requires Aligned(t) && name != [] && name !in t.nameToId && parse(name).Some?
    ensures var (r, u) := Intern(t, name, parse, registry);
      var deviceType := parse(name).value;
      && r == Success(|t.names|) && r.value < |u.isCpu|
      && u.deviceTypes[r.value] == deviceType
      && (u.isCpu[r.value] <==> deviceType == DeviceCpu)
      && (u.isGpu[r.value] <==> deviceType == DeviceGpu)
      && !(u.isCpu[r.value] && u.isGpu[r.value])
      && (u.compilationDevices[r.value].None? <==> registry(deviceType).None?)
  {
  }

  /** Asking again for a name that was interned returns the same id and changes
      nothing. */
  lemma InternAgain(t: Tables, name: string, parse: string -> Option<string>,
                    registry: string -> Option<DeviceRegistration>)
    requires Valid(t)
    requires Intern(t, name, parse, registry).0.Success?
    ensures var (r, u) := Intern(t, name, parse, registry);
      Intern(u, name, parse, registry) == (r, u)
  {
  }

  /** Two different names interned one after the other get different ids. */
  lemma InternDistinct(t: Tables, a: string, b: string, parse: string -> Option<string>,
                       registry: string -> Option<DeviceRegistration>)
    requires Valid(t) && a != b
    requires Intern(t, a, parse, registry).0.Success?
    requires Intern(Intern(t, a, parse, registry).1, b, parse, registry).0.Success?
    ensures Intern(t, a, parse, registry).0.value
         != Intern(Intern(t, a, parse, registry).1, b, parse, registry).0.value
  {
    var (r, u) := Intern(t, a, parse, registry);
    InternKeepsValid(t, a, parse, registry);
    var (q, w) := Intern(u, b, parse, registry);
    InternKeepsValid(u, b, parse, registry);
    assert a in w.nameToId && b in w.nameToId;
    InternedInjective(w, a, b);
  }

  /** The parser used to exhibit the partial append: it knows one CPU device. */
  function CpuOnlyParser(name: string): Option<string>
  {
    if name == "/device:CPU:0" then Some(DeviceCpu) else None
  }

  /** No compilation devices are registered. */
  function NoRegistrations(deviceType: string): Option<DeviceRegistration>
  {
    None
  }

  /** As written, a name that fails to parse still takes id 0, so the next name
      gets id 1 while is_cpu_ and is_gpu_ have one entry: IsCpu(1) and IsGpu(1)
      index past their end, and is_cpu_[0] describes the second name. */
  lemma MalformedNameShiftsIds()
    ensures var (r1, t1) := Intern(NoTables, "bad", CpuOnlyParser, NoRegistrations);
      var (r2, t2) := Intern(t1, "/device:CPU:0", CpuOnlyParser, NoRegistrations);
      && r1 == Failure(MalformedAssignedDevice("bad"))
      && r2 == Success(1) && |t2.isCpu| == 1 && |t2.isGpu| == 1
      && t2.deviceTypes[0] == "" && t2.isCpu[0]
      && !Aligned(t2)
  {
    var (r1, t1) := Intern(NoTables, "bad", CpuOnlyParser, NoRegistrations);
    assert "bad" != "/device:CPU:0";
    var (r2, t2) := Intern(t1, "/device:CPU:0", CpuOnlyParser, NoRegistrations);
    assert !Classified(t2.deviceTypes, t2.isCpu, t2.isGpu) by {
      assert t2.isCpu[0] && t2.deviceTypes[0] != DeviceCpu;
    }
  }

  /** Parsing first, every call keeps aligned tables aligned, failures change
      nothing, and successes agree with GetIdFor as written. */
  lemma InternParsedFirstKeepsAligned(t: Tables, name: string, parse: string -> Option<string>,
                                      registry: string -> Option<DeviceRegistration>)
    requires Aligned(t)
    ensures var (r, u) := InternParsedFirst(t, name, parse, registry);
      && Aligned(u)
      && (r.Failure? ==> u == t)
      && (r.Success? ==> (r, u) == Intern(t, name, parse, registry))
  {
    if name != [] && name !in t.nameToId && parse(name).Some? {
      InternKeepsAligned(t, name, parse, registry);
    }
  }

  /** Parsing first, the same two calls give the CPU device id 0. */
  lemma ParsedFirstKeepsIdsDense()
    ensures var (r1, t1) := InternParsedFirst(NoTables, "bad", CpuOnlyParser, NoRegistrations);
      var (r2, t2) := InternParsedFirst(t1, "/device:CPU:0", CpuOnlyParser, NoRegistrations);
      && r1 == Failure(MalformedAssignedDevice("bad"))
      && r2 == Success(0) && t2.isCpu == [true] && Aligned(t2)
  {
    InternParsedFirstKeepsAligned(NoTables, "bad", CpuOnlyParser, NoRegistrations);
    var (r1, t1) := InternParsedFirst(NoTables, "bad", CpuOnlyParser, NoRegistrations);
    InternParsedFirstKeepsAligned(t1, "/device:CPU:0", CpuOnlyParser, NoRegistrations);
  }

  // ---------------------------------------------------------------------------
  // The cache

  class DeviceInfoCache {
    /** names_: the name of each id. */
    var names: seq<string>
    /** id_to_device_type_: the device type string of each id. */
    var idToDeviceType: seq<string>
    /** is_cpu_ and is_gpu_. */
    var isCpu: seq<bool>
    var isGpu: seq<bool>
    /** name_to_id_. */
    var nameToId: map<string, nat>
    /** id_to_compilation_device_: None stands for a null pointer. */
    var idToCompilationDevice: seq<Option<DeviceRegistration>>

    /** The members, as a value. */
    ghost function State(): Tables
      reads this
    {
      Tables(names, idToDeviceType, isCpu, isGpu, nameToId, idToCompilationDevice)
    }

    constructor ()
      ensures State() == NoTables
    {
      names, idToDeviceType := [], [];
      isCpu, isGpu := [], [];
      nameToId := map[];
      idToCompilationDevice := [];
    }

    /** GetIdFor as written. */
    method GetIdFor(name: string, parse: string -> Option<string>,
                    registry: string -> Option<DeviceRegistration>) returns (r: Result<nat>)
      modifies this
      ensures (r, State()) == Intern(old(State()), name, parse, registry)
    {
      if name == [] {
        return Failure(EmptyDeviceName);
      }
      if name in nameToId {
        return Success(nameToId[name]);
      }
      var newId := |names|;
      names, idToDeviceType := names + [name], idToDeviceType + [""];
      var parsed := parse(names[newId]);
      if parsed.None? {
        return Failure(MalformedAssignedDevice(name));
      }
      var deviceType := parsed.value;
      ghost var typesBefore := old(idToDeviceType);
      idToDeviceType := idToDeviceType[|idToDeviceType| - 1 := deviceType];
      assert idToDeviceType == typesBefore + [deviceType];
      isCpu, isGpu := isCpu + [deviceType == DeviceCpu], isGpu + [deviceType == DeviceGpu];
      nameToId := nameToId[name := newId];
      idToCompilationDevice := idToCompilationDevice + [registry(deviceType)];
      return Success(newId);
    }

    /** GetIdFor as evidently intended: the name is parsed before anything is
        appended. */
    method GetIdForParsedFirst(name: string, parse: string -> Option<string>,
                               registry: string -> Option<DeviceRegistration>) returns (r: Result<nat>)
      modifies this
      ensures (r, State()) == InternParsedFirst(old(State()), name, parse, registry)
    {
      if name == [] {
        return Failure(EmptyDeviceName);
      }
      if name in nameToId {
        return Success(nameToId[name]);
      }
      var parsed := parse(name);
      if parsed.None? {
        return Failure(MalformedAssignedDevice(name));
      }
      var newId := |names|;
      var deviceType := parsed.value;
      names, idToDeviceType := names + [name], idToDeviceType + [deviceType];
      isCpu, isGpu := isCpu + [deviceType == DeviceCpu], isGpu + [deviceType == DeviceGpu];
      nameToId := nameToId[name := newId];
      idToCompilationDevice := idToCompilationDevice + [registry(deviceType)];
      return Success(newId);
    }

    /** DebugString as written: ForEach visits the members in ascending order, the
        callback appends the member's name and returns false, which ends the
        enumeration. */
    method DebugString(deviceSet: DeviceSet) returns (r: string)
      requires Named(names, deviceSet.storage)
      ensures r == ListedAsWritten(names, deviceSet.storage)
    {
      var storage := deviceSet.storage;
      var limit := |storage| * WordSize;
      var listed: seq<string> := [];
      var id := 0;
      while id < limit
        invariant id <= limit
        invariant MembersBelow(storage, id) == []
        invariant listed == []
      {
        if InStorage(storage, id) {
          listed := listed + [names[id]];
          break;
        }
        id := id + 1;
      }
      if listed != [] {
        ListedAsWrittenFirst(names, storage, id);
      }
      return Bracketed(listed);
    }

    /** DebugString as evidently intended: the callback returns true, so every
        member's name is listed. */
    method DebugStringAll(deviceSet: DeviceSet) returns (r: string)
      requires Named(names, deviceSet.storage)
      ensures r == Listed(names, deviceSet.storage)
    {
      var storage := deviceSet.storage;
      var limit := |storage| * WordSize;
      var listed: seq<string> := [];
      var id := 0;
      while id < limit
        invariant id <= limit
        invariant listed == NamesOf(names, MembersBelow(storage, id))
      {
        NamesOfNext(names, storage, id);
        if InStorage(storage, id) {
          listed := listed + [names[id]];
        }
        id := id + 1;
      }
      return Bracketed(listed);
    }
  }
}
