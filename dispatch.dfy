/** The eight FastForward entry points of src/H5FF.c as state transitions.
    Each one checks its arguments, substitutes default property lists,
    looks up the parent identifier's object and plugin, calls the plugin,
    and registers what the plugin made. The plugin is an oracle: its reply
    is a parameter, and every call made into it is appended to the log. */
module H5FF {
  import opened H5Types
  import opened H5Registry

  /** File access flags (H5F_ACC_*) and the mask of the public ones. */
  const ACC_RDONLY: bv32 := 0x0000
  const ACC_RDWR: bv32 := 0x0001
  const ACC_TRUNC: bv32 := 0x0002
  const ACC_EXCL: bv32 := 0x0004
  const ACC_DEBUG: bv32 := 0x0008
  const ACC_CREAT: bv32 := 0x0010
  const ACC_PUBLIC_FLAGS: bv32 := 0x00ff

  /** A name argument is neither NULL nor the empty string. */
  predicate NamePresent(name: Option<string>) {
    name.Some? && name.value != []
  }

  /** The flag checks of H5Fcreate_ff, in the order it makes them. */
  function CreateFlagsCheck(flags: bv32): Option<Error> {
    if flags & !(ACC_EXCL | ACC_TRUNC | ACC_DEBUG) != 0 then Some(BadFlags)
    else if flags & ACC_EXCL != 0 && flags & ACC_TRUNC != 0 then Some(ExclusiveFlags)
    else None
  }

  /** The flag check of H5Fopen_ff. */
  function OpenFlagsCheck(flags: bv32): Option<Error> {
    if flags & !ACC_PUBLIC_FLAGS != 0 || flags & ACC_TRUNC != 0 || flags & ACC_EXCL != 0 then Some(BadFlags)
    else None
  }

  /** `loc` is registered and carries a plugin, so a call can be routed through it. */
  predicate Located(ids: map<Hid, Entry>, loc: Hid) {
    loc in ids && ids[loc].aux.Some?
  }

  // ---------------------------------------------------------------------
  // Argument checks, one predicate per entry point: all of them pass.

  predicate FcreateArgsOk(ids: map<Hid, Entry>, filename: Option<string>, flags: bv32, fcpl: Hid, fapl: Hid) {
    NamePresent(filename) && CreateFlagsCheck(flags).None? && Accepts(ids, fcpl, FileCreate) && Accepts(ids, fapl, FileAccess)
  }

  predicate FopenArgsOk(ids: map<Hid, Entry>, filename: Option<string>, flags: bv32, fapl: Hid) {
    NamePresent(filename) && OpenFlagsCheck(flags).None? && Accepts(ids, fapl, FileAccess)
  }

  predicate GcreateArgsOk(ids: map<Hid, Entry>, name: Option<string>, lcpl: Hid, gcpl: Hid, gapl: Hid) {
    NamePresent(name) && Accepts(ids, lcpl, LinkCreate) && Accepts(ids, gcpl, GroupCreate) && Accepts(ids, gapl, GroupAccess)
  }

  predicate GopenArgsOk(ids: map<Hid, Entry>, name: Option<string>, gapl: Hid) {
    NamePresent(name) && Accepts(ids, gapl, GroupAccess)
  }

  predicate DcreateArgsOk(ids: map<Hid, Entry>, name: Option<string>, lcpl: Hid, dcpl: Hid, dapl: Hid) {
    NamePresent(name) && Accepts(ids, lcpl, LinkCreate) && Accepts(ids, dcpl, DatasetCreate) && Accepts(ids, dapl, DatasetAccess)
  }

  predicate DopenArgsOk(ids: map<Hid, Entry>, name: Option<string>, dapl: Hid) {
    NamePresent(name) && Accepts(ids, dapl, DatasetAccess)
  }

  // ---------------------------------------------------------------------
  // The tail shared by the group and dataset create/open entry points.

  /** Which plugin operation a group or dataset entry point makes, with the
      property lists it has already resolved. */
  datatype Under =
    | GroupCreating(gcpl: Hid, gapl: Hid)
    | GroupOpening(gapl: Hid)
    | DatasetCreating(dcpl: Hid, dapl: Hid)
    | DatasetOpening(dapl: Hid)

  function CallFor(u: Under, obj: Obj, lp: LocParams, plugin: Plugin, name: string, dxpl: Hid, eq: Hid): VolCall {
    match u
    case GroupCreating(gcpl, gapl) => GroupCreateCall(obj, lp, plugin, name, gcpl, gapl, dxpl, eq)
    case GroupOpening(gapl) => GroupOpenCall(obj, lp, plugin, name, gapl, dxpl, eq)
    case DatasetCreating(dcpl, dapl) => DatasetCreateCall(obj, lp, plugin, name, dcpl, dapl, dxpl, eq)
    case DatasetOpening(dapl) => DatasetOpenCall(obj, lp, plugin, name, dapl, dxpl, eq)
  }

  /** The type tag the new identifier is registered with. */
  function TagFor(u: Under): IdType {
    if u.GroupCreating? || u.GroupOpening? then GroupId else DatasetId
  }

  /** H5Gcreate_ff, H5Dcreate_ff and H5Dopen_ff close what the plugin made
      when registration fails; H5Gopen_ff does not. */
  predicate HasRollback(u: Under) {
    !u.GroupOpening?
  }

  function CloseFor(u: Under, made: Token, plugin: Plugin, dxpl: Hid, eq: Hid): VolCall {
    if u.GroupCreating? || u.GroupOpening? then GroupCloseCall(made, plugin, dxpl, eq)
    else DatasetCloseCall(made, plugin, dxpl, eq)
  }

  /** Look up the parent's object and then its plugin, call the plugin, and
      register the object it made under a new identifier carrying the
      parent's plugin; on a failed registration, close that object through
      the same plugin when the entry point does so. */
  function CallUnder(s: State, loc: Hid, u: Under, name: string, eq: Hid, reply: Option<Token>): (t: Transition<Hid>)
    ensures loc !in s.ids ==> t == Transition(s, Err(BadLocation))
    ensures loc in s.ids && s.ids[loc].aux.None? ==> t == Transition(s, Err(NoVolInfo))
    ensures Located(s.ids, loc) ==>
      var call := CallFor(u, s.ids[loc].obj, BySelf(s.ids[loc].tag), s.ids[loc].aux.value, name, s.acDxpl, eq);
      && |t.post.log| > |s.log|
      && t.post.log[..|s.log| + 1] == s.log + [call]
      && (reply.None? ==> t == Transition(s.(log := s.log + [call]), Err(BackendFailed)))
      && (reply.Some? && s.nextId > MAX_ID ==>
            t.ret == Err(CantRegister) &&
            t.post.log == s.log + [call] + (if HasRollback(u) then [CloseFor(u, reply.value, s.ids[loc].aux.value, s.acDxpl, eq)] else []))
      && (t.ret.Ok? ==> t.post.log == s.log + [call])
    ensures t.ret.Ok? <==> Located(s.ids, loc) && reply.Some? && s.nextId <= MAX_ID
    ensures t.ret.Ok? ==>
      && t.ret.value == s.nextId
      && t.post.nextId == s.nextId + 1
      && t.post.ids == s.ids[s.nextId := Entry(TagFor(u), Backend(reply.value), s.ids[loc].aux)]
    ensures t.ret.Err? ==> t.post.ids == s.ids && t.post.nextId == s.nextId
    ensures t.post.defaults == s.defaults && t.post.acDxpl == s.acDxpl
  {
    var lp := BySelf(TypeOf(s.ids, loc));
    var obj := ObjectOf(s.ids, loc);
    if obj.None? then Transition(s, Err(BadLocation))
    else
      var plugin := AuxOf(s.ids, loc);
      if plugin.None? then Transition(s, Err(NoVolInfo))
      else
        var s1 := s.(log := s.log + [CallFor(u, obj.value, lp, plugin.value, name, s.acDxpl, eq)]);
        if reply.None? then Transition(s1, Err(BackendFailed))
        else
          var reg := Register(s1, TagFor(u), Backend(reply.value), plugin);
          if reg.ret.Err? && HasRollback(u) then
            Transition(s1.(log := s1.log + [CloseFor(u, reply.value, plugin.value, s.acDxpl, eq)]), Err(CantRegister))
          else reg
  }

  // ---------------------------------------------------------------------
  // The entry points.

  /** H5Fcreate_ff. */
  function Fcreate(s: State, filename: Option<string>, flags: bv32, fcpl: Hid, fapl: Hid, eq: Hid, reply: Option<Made>): (t: Transition<Hid>)
    // argument checks, in order, before anything is looked up or called
    ensures !NamePresent(filename) ==> t == Transition(s, Err(BadName))
    ensures NamePresent(filename) && CreateFlagsCheck(flags).Some? ==> t == Transition(s, Err(CreateFlagsCheck(flags).value))
    ensures NamePresent(filename) && CreateFlagsCheck(flags).None? && !Accepts(s.ids, fcpl, FileCreate) ==>
      t == Transition(s, Err(NotPList(FileCreate)))
    ensures NamePresent(filename) && CreateFlagsCheck(flags).None? && Accepts(s.ids, fcpl, FileCreate) && !Accepts(s.ids, fapl, FileAccess) ==>
      t == Transition(s, Err(NotPList(FileAccess)))
    // the plugin is called once, with the flags unchanged and the lists resolved
    ensures FcreateArgsOk(s.ids, filename, flags, fcpl, fapl) ==>
      t.post.log == s.log + [FileCreateCall(filename.value, flags, Resolve(fcpl, s.defaults.fileCreate), Resolve(fapl, s.defaults.fileAccess), s.acDxpl, eq)]
    ensures t.ret.Ok? <==> FcreateArgsOk(s.ids, filename, flags, fcpl, fapl) && reply.Some? && s.nextId <= MAX_ID
    // a failed plugin call and a failed registration are told apart
    ensures FcreateArgsOk(s.ids, filename, flags, fcpl, fapl) && reply.None? ==> t.ret == Err(BackendFailed)
    ensures FcreateArgsOk(s.ids, filename, flags, fcpl, fapl) && reply.Some? && s.nextId > MAX_ID ==> t.ret == Err(CantRegister)
    // success: a new FILE identifier carrying the plugin the backend reported
    ensures t.ret.Ok? ==>
      && t.ret.value == s.nextId && t.post.nextId == s.nextId + 1
      && t.post.ids == s.ids[t.ret.value := Entry(FileId, Backend(reply.value.token), Some(reply.value.plugin))]
    // failure: no identifier left behind, and no close is attempted
    ensures t.ret.Err? ==> t.post.ids == s.ids && t.post.nextId == s.nextId
    ensures t.post.defaults == s.defaults && t.post.acDxpl == s.acDxpl
  {
    if !NamePresent(filename) then Transition(s, Err(BadName))
    else if CreateFlagsCheck(flags).Some? then Transition(s, Err(CreateFlagsCheck(flags).value))
    else
      var fcplR := ResolveList(s.ids, fcpl, FileCreate, s.defaults.fileCreate);
      if fcplR.Err? then Transition(s, Err(fcplR.error))
      else
        var faplR := ResolveList(s.ids, fapl, FileAccess, s.defaults.fileAccess);
        if faplR.Err? then Transition(s, Err(faplR.error))
        else
          var s1 := s.(log := s.log + [FileCreateCall(filename.value, flags, fcplR.value, faplR.value, s.acDxpl, eq)]);
          if reply.None? then Transition(s1, Err(BackendFailed))
          else Register(s1, FileId, Backend(reply.value.token), Some(reply.value.plugin))
  }

  /** H5Fopen_ff. */
  function Fopen(s: State, filename: Option<string>, flags: bv32, fapl: Hid, eq: Hid, reply: Option<Made>): (t: Transition<Hid>)
    ensures !NamePresent(filename) ==> t == Transition(s, Err(BadName))
    ensures NamePresent(filename) && OpenFlagsCheck(flags).Some? ==> t == Transition(s, Err(BadFlags))
    ensures NamePresent(filename) && OpenFlagsCheck(flags).None? && !Accepts(s.ids, fapl, FileAccess) ==>
      t == Transition(s, Err(NotPList(FileAccess)))
    ensures FopenArgsOk(s.ids, filename, flags, fapl) ==>
      t.post.log == s.log + [FileOpenCall(filename.value, flags, Resolve(fapl, s.defaults.fileAccess), s.acDxpl, eq)]
    ensures t.ret.Ok? <==> FopenArgsOk(s.ids, filename, flags, fapl) && reply.Some? && s.nextId <= MAX_ID
    ensures FopenArgsOk(s.ids, filename, flags, fapl) && reply.None? ==> t.ret == Err(BackendFailed)
    ensures FopenArgsOk(s.ids, filename, flags, fapl) && reply.Some? && s.nextId > MAX_ID ==> t.ret == Err(CantRegister)
    ensures t.ret.Ok? ==>
      && t.ret.value == s.nextId && t.post.nextId == s.nextId + 1
      && t.post.ids == s.ids[t.ret.value := Entry(FileId, Backend(reply.value.token), Some(reply.value.plugin))]
    ensures t.ret.Err? ==> t.post.ids == s.ids && t.post.nextId == s.nextId
    ensures t.post.defaults == s.defaults && t.post.acDxpl == s.acDxpl
  {
    if !NamePresent(filename) then Transition(s, Err(BadName))
    else if OpenFlagsCheck(flags).Some? then Transition(s, Err(BadFlags))
    else
      var faplR := ResolveList(s.ids, fapl, FileAccess, s.defaults.fileAccess);
      if faplR.Err? then Transition(s, Err(faplR.error))
      else
        var s1 := s.(log := s.log + [FileOpenCall(filename.value, flags, faplR.value, s.acDxpl, eq)]);
        if reply.None? then Transition(s1, Err(BackendFailed))
        else Register(s1, FileId, Backend(reply.value.token), Some(reply.value.plugin))
  }

  /** H5Gcreate_ff. The transaction number is accepted and not used. */
  function Gcreate(s: State, loc: Hid, name: Option<string>, lcpl: Hid, gcpl: Hid, gapl: Hid, trans: Uint64, eq: Hid, reply: Option<Token>): (t: Transition<Hid>)
    ensures !NamePresent(name) ==> t == Transition(s, Err(BadName))
    ensures NamePresent(name) && !Accepts(s.ids, lcpl, LinkCreate) ==> t == Transition(s, Err(NotPList(LinkCreate)))
    ensures NamePresent(name) && Accepts(s.ids, lcpl, LinkCreate) && !Accepts(s.ids, gcpl, GroupCreate) ==>
      t == Transition(s, Err(NotPList(GroupCreate)))
    ensures NamePresent(name) && Accepts(s.ids, lcpl, LinkCreate) && Accepts(s.ids, gcpl, GroupCreate) && !Accepts(s.ids, gapl, GroupAccess) ==>
      t == Transition(s, Err(NotPList(GroupAccess)))
    // the resolved lcpl is stored into the resolved gcpl before the parent is looked up
    ensures GcreateArgsOk(s.ids, name, lcpl, gcpl, gapl) ==>
      var g := Resolve(gcpl, s.defaults.groupCreate);
      && (!CanSet(s.ids, g, GroupLcplId) ==>
            t.post == s && t.ret == Err(if g in s.ids && s.ids[g].obj.PList? then CantSetProperty(GroupLcplId) else PListMissing))
      && (CanSet(s.ids, g, GroupLcplId) ==>
            t.post.ids - {s.nextId} == s.ids[g := WithProp(s.ids[g], GroupLcplId, Resolve(lcpl, s.defaults.linkCreate))] - {s.nextId})
    // the plugin is not called unless the parent has an object and a plugin
    ensures !Located(s.ids, loc) ==> t.post.log == s.log && t.ret.Err?
    ensures GcreateArgsOk(s.ids, name, lcpl, gcpl, gapl) && CanSet(s.ids, Resolve(gcpl, s.defaults.groupCreate), GroupLcplId) ==>
      && (loc !in s.ids ==> t.ret == Err(BadLocation))
      && (loc in s.ids && s.ids[loc].aux.None? ==> t.ret == Err(NoVolInfo))
    ensures t.ret.Ok? <==>
      && GcreateArgsOk(s.ids, name, lcpl, gcpl, gapl) && CanSet(s.ids, Resolve(gcpl, s.defaults.groupCreate), GroupLcplId)
      && Located(s.ids, loc) && reply.Some? && s.nextId <= MAX_ID
    // the plugin gets the parent's object (as it is after the store) by self, the resolved
    // lists, H5AC_dxpl_id and eq_id; the only other call is the close after a failed registration
    ensures GcreateArgsOk(s.ids, name, lcpl, gcpl, gapl) && CanSet(s.ids, Resolve(gcpl, s.defaults.groupCreate), GroupLcplId)
            && Located(s.ids, loc) ==>
      var g := Resolve(gcpl, s.defaults.groupCreate);
      var st := s.ids[g := WithProp(s.ids[g], GroupLcplId, Resolve(lcpl, s.defaults.linkCreate))];
      var call := GroupCreateCall(st[loc].obj, BySelf(s.ids[loc].tag), s.ids[loc].aux.value, name.value,
                                  g, Resolve(gapl, s.defaults.groupAccess), s.acDxpl, eq);
      && t.post.log == s.log + [call] +
           (if reply.Some? && s.nextId > MAX_ID then [GroupCloseCall(reply.value, s.ids[loc].aux.value, s.acDxpl, eq)] else [])
      && (reply.None? ==> t.ret == Err(BackendFailed))
    // success: a GROUP identifier carrying the parent's plugin
    ensures t.ret.Ok? ==> t.ret.value == s.nextId && t.ret.value in t.post.ids && t.post.ids[t.ret.value] == Entry(GroupId, Backend(reply.value), s.ids[loc].aux)
    ensures t.ret.Ok? ==> t.post.ids.Keys == s.ids.Keys + {s.nextId} && t.post.nextId == s.nextId + 1
    ensures t.ret.Err? ==> t.post.ids.Keys == s.ids.Keys && t.post.nextId == s.nextId
    ensures t.post.defaults == s.defaults && t.post.acDxpl == s.acDxpl
    // a group made by the plugin but not registered is closed through the same plugin and eq_id
    ensures GcreateArgsOk(s.ids, name, lcpl, gcpl, gapl) && CanSet(s.ids, Resolve(gcpl, s.defaults.groupCreate), GroupLcplId)
            && Located(s.ids, loc) && reply.Some? && s.nextId > MAX_ID ==>
      t.ret == Err(CantRegister) && |t.post.log| == |s.log| + 2 &&
      t.post.log[|s.log| + 1] == GroupCloseCall(reply.value, s.ids[loc].aux.value, s.acDxpl, eq)
  {
    if !NamePresent(name) then Transition(s, Err(BadName))
    else
      var lcplR := ResolveList(s.ids, lcpl, LinkCreate, s.defaults.linkCreate);
      if lcplR.Err? then Transition(s, Err(lcplR.error))
      else
        var gcplR := ResolveList(s.ids, gcpl, GroupCreate, s.defaults.groupCreate);
        if gcplR.Err? then Transition(s, Err(gcplR.error))
        else
          var gaplR := ResolveList(s.ids, gapl, GroupAccess, s.defaults.groupAccess);
          if gaplR.Err? then Transition(s, Err(gaplR.error))
          else
            var stored := SetProp(s.ids, gcplR.value, GroupLcplId, lcplR.value);
            if stored.Err? then Transition(s, Err(stored.error))
            else CallUnder(s.(ids := stored.value), loc, GroupCreating(gcplR.value, gaplR.value), name.value, eq, reply)
  }

  /** H5Gopen_ff. The transaction number is accepted and not used. */
  function Gopen(s: State, loc: Hid, name: Option<string>, gapl: Hid, trans: Uint64, eq: Hid, reply: Option<Token>): (t: Transition<Hid>)
    ensures !NamePresent(name) ==> t == Transition(s, Err(BadName))
    ensures NamePresent(name) && !Accepts(s.ids, gapl, GroupAccess) ==> t == Transition(s, Err(NotPList(GroupAccess)))
    ensures !Located(s.ids, loc) ==> t.post == s && t.ret.Err?
    // exactly one plugin call, and no close whatever happens after it
    ensures GopenArgsOk(s.ids, name, gapl) && Located(s.ids, loc) ==>
      t.post.log == s.log + [GroupOpenCall(s.ids[loc].obj, BySelf(s.ids[loc].tag), s.ids[loc].aux.value, name.value,
                                           Resolve(gapl, s.defaults.groupAccess), s.acDxpl, eq)]
    ensures t.ret.Ok? <==> GopenArgsOk(s.ids, name, gapl) && Located(s.ids, loc) && reply.Some? && s.nextId <= MAX_ID
    ensures GopenArgsOk(s.ids, name, gapl) && loc !in s.ids ==> t.ret == Err(BadLocation)
    ensures GopenArgsOk(s.ids, name, gapl) && loc in s.ids && s.ids[loc].aux.None? ==> t.ret == Err(NoVolInfo)
    ensures GopenArgsOk(s.ids, name, gapl) && Located(s.ids, loc) && reply.None? ==> t.ret == Err(BackendFailed)
    ensures GopenArgsOk(s.ids, name, gapl) && Located(s.ids, loc) && reply.Some? && s.nextId > MAX_ID ==> t.ret == Err(CantRegister)
    ensures t.ret.Ok? ==>
      && t.ret.value == s.nextId && t.post.nextId == s.nextId + 1
      && t.post.ids == s.ids[t.ret.value := Entry(GroupId, Backend(reply.value), s.ids[loc].aux)]
    ensures t.ret.Err? ==> t.post.ids == s.ids && t.post.nextId == s.nextId
    ensures t.post.defaults == s.defaults && t.post.acDxpl == s.acDxpl
  {
    if !NamePresent(name) then Transition(s, Err(BadName))
    else
      var gaplR := ResolveList(s.ids, gapl, GroupAccess, s.defaults.groupAccess);
      if gaplR.Err? then Transition(s, Err(gaplR.error))
      else CallUnder(s, loc, GroupOpening(gaplR.value), name.value, eq, reply)
  }

  /** The dataset-creation list after H5Dcreate_ff has stored the datatype,
      the dataspace and the resolved link-creation list into it. */
  function DcplStored(e: Entry, typeId: Hid, spaceId: Hid, lcpl: Hid): Entry
    requires e.obj.PList?
  {
    WithProp(WithProp(WithProp(e, DsetTypeId, typeId), DsetSpaceId, spaceId), DsetLcplId, lcpl)
  }

  /** All three stores of H5Dcreate_ff succeed on list `d`. */
  predicate DcplStorable(ids: map<Hid, Entry>, d: Hid) {
    CanSet(ids, d, DsetTypeId) && CanSet(ids, d, DsetSpaceId) && CanSet(ids, d, DsetLcplId)
  }

  /** The table after the stores H5Dcreate_ff makes into a dataset-creation
      list, and the error that stopped them, if any. */
  datatype Stored = Stored(ids: map<Hid, Entry>, err: Option<Error>)

  /** The three stores of H5Dcreate_ff into list `d`: the datatype, the
      dataspace, then the link-creation list. The first failure stops the
      sequence and the stores made before it stay. */
  function StoreDcpl(ids: map<Hid, Entry>, d: Hid, typeId: Hid, spaceId: Hid, lcpl: Hid): (r: Stored)
    ensures r.err.None? <==> DcplStorable(ids, d)
    ensures r.err.None? ==> r.ids == ids[d := DcplStored(ids[d], typeId, spaceId, lcpl)]
    ensures !CanSet(ids, d, DsetTypeId) ==> r == Stored(ids, Some(SetProp(ids, d, DsetTypeId, typeId).error))
    ensures CanSet(ids, d, DsetTypeId) && !CanSet(ids, d, DsetSpaceId) ==>
      r == Stored(ids[d := WithProp(ids[d], DsetTypeId, typeId)], Some(CantSetProperty(DsetSpaceId)))
    ensures CanSet(ids, d, DsetTypeId) && CanSet(ids, d, DsetSpaceId) && !CanSet(ids, d, DsetLcplId) ==>
      r == Stored(ids[d := WithProp(WithProp(ids[d], DsetTypeId, typeId), DsetSpaceId, spaceId)], Some(CantSetProperty(DsetLcplId)))
  {
    var withType := SetProp(ids, d, DsetTypeId, typeId);
    if withType.Err? then Stored(ids, Some(withType.error))
    else
      var withSpace := SetProp(withType.value, d, DsetSpaceId, spaceId);
      if withSpace.Err? then Stored(withType.value, Some(withSpace.error))
      else
        var withLcpl := SetProp(withSpace.value, d, DsetLcplId, lcpl);
        if withLcpl.Err? then Stored(withSpace.value, Some(withLcpl.error))
        else Stored(withLcpl.value, None)
  }

  /** H5Dcreate_ff. The transaction number is accepted and not used; the
      datatype and dataspace identifiers are stored without being checked. */
  function Dcreate(s: State, loc: Hid, name: Option<string>, typeId: Hid, spaceId: Hid, lcpl: Hid, dcpl: Hid, dapl: Hid,
                   trans: Uint64, eq: Hid, reply: Option<Token>): (t: Transition<Hid>)
    ensures !NamePresent(name) ==> t == Transition(s, Err(BadName))
    ensures NamePresent(name) && !Accepts(s.ids, lcpl, LinkCreate) ==> t == Transition(s, Err(NotPList(LinkCreate)))
    ensures NamePresent(name) && Accepts(s.ids, lcpl, LinkCreate) && !Accepts(s.ids, dcpl, DatasetCreate) ==>
      t == Transition(s, Err(NotPList(DatasetCreate)))
    ensures NamePresent(name) && Accepts(s.ids, lcpl, LinkCreate) && Accepts(s.ids, dcpl, DatasetCreate) && !Accepts(s.ids, dapl, DatasetAccess) ==>
      t == Transition(s, Err(NotPList(DatasetAccess)))
    // the three stores into the resolved dcpl, in order, before the parent is looked up;
    // a failed store aborts and leaves the earlier ones in place
    ensures DcreateArgsOk(s.ids, name, lcpl, dcpl, dapl) ==>
      var d := Resolve(dcpl, s.defaults.datasetCreate);
      && (!CanSet(s.ids, d, DsetTypeId) ==>
            t.post == s && t.ret == Err(if d in s.ids && s.ids[d].obj.PList? then CantSetProperty(DsetTypeId) else PListMissing))
      && (CanSet(s.ids, d, DsetTypeId) && !CanSet(s.ids, d, DsetSpaceId) ==>
            t == Transition(s.(ids := s.ids[d := WithProp(s.ids[d], DsetTypeId, typeId)]), Err(CantSetProperty(DsetSpaceId))))
      && (CanSet(s.ids, d, DsetTypeId) && CanSet(s.ids, d, DsetSpaceId) && !CanSet(s.ids, d, DsetLcplId) ==>
            t == Transition(s.(ids := s.ids[d := WithProp(WithProp(s.ids[d], DsetTypeId, typeId), DsetSpaceId, spaceId)]),
                            Err(CantSetProperty(DsetLcplId))))
      && (DcplStorable(s.ids, d) ==>
            t.post.ids - {s.nextId} == s.ids[d := DcplStored(s.ids[d], typeId, spaceId, Resolve(lcpl, s.defaults.linkCreate))] - {s.nextId})
    ensures !Located(s.ids, loc) ==> t.post.log == s.log && t.ret.Err?
    ensures DcreateArgsOk(s.ids, name, lcpl, dcpl, dapl) && DcplStorable(s.ids, Resolve(dcpl, s.defaults.datasetCreate)) ==>
      && (loc !in s.ids ==> t.ret == Err(BadLocation))
      && (loc in s.ids && s.ids[loc].aux.None? ==> t.ret == Err(NoVolInfo))
    // the plugin gets the parent's object (as it is after the stores) by self, the resolved
    // lists, H5AC_dxpl_id and eq_id; the only other call is the close after a failed registration
    ensures DcreateArgsOk(s.ids, name, lcpl, dcpl, dapl) && DcplStorable(s.ids, Resolve(dcpl, s.defaults.datasetCreate))
            && Located(s.ids, loc) ==>
      var d := Resolve(dcpl, s.defaults.datasetCreate);
      var st := s.ids[d := DcplStored(s.ids[d], typeId, spaceId, Resolve(lcpl, s.defaults.linkCreate))];
      var call := DatasetCreateCall(st[loc].obj, BySelf(s.ids[loc].tag), s.ids[loc].aux.value, name.value,
                                    d, Resolve(dapl, s.defaults.datasetAccess), s.acDxpl, eq);
      && t.post.log == s.log + [call] +
           (if reply.Some? && s.nextId > MAX_ID then [DatasetCloseCall(reply.value, s.ids[loc].aux.value, s.acDxpl, eq)] else [])
      && (reply.None? ==> t.ret == Err(BackendFailed))
    ensures t.ret.Ok? <==>
      && DcreateArgsOk(s.ids, name, lcpl, dcpl, dapl) && DcplStorable(s.ids, Resolve(dcpl, s.defaults.datasetCreate))
      && Located(s.ids, loc) && reply.Some? && s.nextId <= MAX_ID
    ensures t.ret.Ok? ==>
      t.ret.value == s.nextId && t.ret.value in t.post.ids && t.post.ids[t.ret.value] == Entry(DatasetId, Backend(reply.value), s.ids[loc].aux)
    ensures t.ret.Ok? ==> t.post.ids.Keys == s.ids.Keys + {s.nextId} && t.post.nextId == s.nextId + 1
    ensures t.ret.Err? ==> t.post.ids.Keys == s.ids.Keys && t.post.nextId == s.nextId
    ensures t.post.defaults == s.defaults && t.post.acDxpl == s.acDxpl
    // a dataset made by the plugin but not registered is closed through the same plugin and eq_id
    ensures DcreateArgsOk(s.ids, name, lcpl, dcpl, dapl) && DcplStorable(s.ids, Resolve(dcpl, s.defaults.datasetCreate))
            && Located(s.ids, loc) && reply.Some? && s.nextId > MAX_ID ==>
      t.ret == Err(CantRegister) && |t.post.log| == |s.log| + 2 &&
      t.post.log[|s.log| + 1] == DatasetCloseCall(reply.value, s.ids[loc].aux.value, s.acDxpl, eq)
  {
    if !NamePresent(name) then Transition(s, Err(BadName))
    else
      var lcplR := ResolveList(s.ids, lcpl, LinkCreate, s.defaults.linkCreate);
      if lcplR.Err? then Transition(s, Err(lcplR.error))
      else
        var dcplR := ResolveList(s.ids, dcpl, DatasetCreate, s.defaults.datasetCreate);
        if dcplR.Err? then Transition(s, Err(dcplR.error))
        else
          var daplR := ResolveList(s.ids, dapl, DatasetAccess, s.defaults.datasetAccess);
          if daplR.Err? then Transition(s, Err(daplR.error))
          else
            var stored := StoreDcpl(s.ids, dcplR.value, typeId, spaceId, lcplR.value);
            if stored.err.Some? then Transition(s.(ids := stored.ids), Err(stored.err.value))
            else CallUnder(s.(ids := stored.ids), loc, DatasetCreating(dcplR.value, daplR.value), name.value, eq, reply)
  }

  /** H5Dopen_ff. The transaction number is accepted and not used. */
  function Dopen(s: State, loc: Hid, name: Option<string>, dapl: Hid, trans: Uint64, eq: Hid, reply: Option<Token>): (t: Transition<Hid>)
    ensures !NamePresent(name) ==> t == Transition(s, Err(BadName))
    ensures NamePresent(name) && !Accepts(s.ids, dapl, DatasetAccess) ==> t == Transition(s, Err(NotPList(DatasetAccess)))
    ensures !Located(s.ids, loc) ==> t.post == s && t.ret.Err?
    ensures DopenArgsOk(s.ids, name, dapl) && Located(s.ids, loc) ==>
      var call := DatasetOpenCall(s.ids[loc].obj, BySelf(s.ids[loc].tag), s.ids[loc].aux.value, name.value,
                                  Resolve(dapl, s.defaults.datasetAccess), s.acDxpl, eq);
      t.post.log == s.log + [call] +
        (if reply.Some? && s.nextId > MAX_ID then [DatasetCloseCall(reply.value, s.ids[loc].aux.value, s.acDxpl, eq)] else [])
    ensures t.ret.Ok? <==> DopenArgsOk(s.ids, name, dapl) && Located(s.ids, loc) && reply.Some? && s.nextId <= MAX_ID
    ensures t.ret == Err(CantRegister) <==> DopenArgsOk(s.ids, name, dapl) && Located(s.ids, loc) && reply.Some? && s.nextId > MAX_ID
    ensures DopenArgsOk(s.ids, name, dapl) && loc !in s.ids ==> t.ret == Err(BadLocation)
    ensures DopenArgsOk(s.ids, name, dapl) && loc in s.ids && s.ids[loc].aux.None? ==> t.ret == Err(NoVolInfo)
    ensures DopenArgsOk(s.ids, name, dapl) && Located(s.ids, loc) && reply.None? ==> t.ret == Err(BackendFailed)
    ensures t.ret.Ok? ==>
      && t.ret.value == s.nextId && t.post.nextId == s.nextId + 1
      && t.post.ids == s.ids[t.ret.value := Entry(DatasetId, Backend(reply.value), s.ids[loc].aux)]
    ensures t.ret.Err? ==> t.post.ids == s.ids && t.post.nextId == s.nextId
    ensures t.post.defaults == s.defaults && t.post.acDxpl == s.acDxpl
  {
    if !NamePresent(name) then Transition(s, Err(BadName))
    else
      var daplR := ResolveList(s.ids, dapl, DatasetAccess, s.defaults.datasetAccess);
      if daplR.Err? then Transition(s, Err(daplR.error))
      else CallUnder(s, loc, DatasetOpening(daplR.value), name.value, eq, reply)
  }

  /** H5Dwrite_ff. `status` is what the plugin's write returns. The plugin is
      looked up before the object, and the identifier's type tag is not
      checked. The transaction number is accepted and not used. */
  function Dwrite(s: State, dset: Hid, memType: Hid, memSpace: Hid, fileSpace: Hid, dxpl: Hid, buf: Buffer,
                  trans: Uint64, eq: Hid, status: int): (t: Transition<int>)
    ensures dset == 0 ==> t == Transition(s, Err(NotDataset))
    ensures dset != 0 && !Accepts(s.ids, dxpl, DatasetXfer) ==> t == Transition(s, Err(NotPList(DatasetXfer)))
    ensures dset != 0 && Accepts(s.ids, dxpl, DatasetXfer) && !Located(s.ids, dset) ==> t == Transition(s, Err(NoVolInfo))
    ensures dset != 0 && Accepts(s.ids, dxpl, DatasetXfer) && Located(s.ids, dset) ==>
      t.post == s.(log := s.log + [DatasetWriteCall(s.ids[dset].obj, s.ids[dset].aux.value, memType, memSpace, fileSpace,
                                                     Resolve(dxpl, s.defaults.datasetXfer), buf, eq)])
    // the plugin's status is returned unchanged when it is not negative
    ensures t.ret.Ok? <==> dset != 0 && Accepts(s.ids, dxpl, DatasetXfer) && Located(s.ids, dset) && status >= 0
    ensures t.ret.Ok? ==> t.ret.value == status
    ensures t.ret.Err? && |t.post.log| > |s.log| ==> t.ret == Err(BackendFailed)
  {
    if dset == 0 then Transition(s, Err(NotDataset))
    else
      var dxplR := ResolveList(s.ids, dxpl, DatasetXfer, s.defaults.datasetXfer);
      if dxplR.Err? then Transition(s, Err(dxplR.error))
      else
        var plugin := AuxOf(s.ids, dset);
        if plugin.None? then Transition(s, Err(NoVolInfo))
        else
          var obj := ObjectOf(s.ids, dset);
          if obj.None? then Transition(s, Err(BadLocation))
          else
            var s1 := s.(log := s.log + [DatasetWriteCall(obj.value, plugin.value, memType, memSpace, fileSpace, dxplR.value, buf, eq)]);
            if status < 0 then Transition(s1, Err(BackendFailed)) else Transition(s1, Ok(status))
  }

  /** H5Dread_ff. `status` is what the plugin's read returns; the bytes it
      places in `buf` are not modelled. The dataset identifier itself is not
      checked before the plugin lookup. The transaction number is accepted
      and not used. */
  function Dread(s: State, dset: Hid, memType: Hid, memSpace: Hid, fileSpace: Hid, dxpl: Hid, buf: Buffer,
                 trans: Uint64, eq: Hid, status: int): (t: Transition<int>)
    ensures memSpace < 0 || fileSpace < 0 ==> t == Transition(s, Err(NotDataspace))
    ensures memSpace >= 0 && fileSpace >= 0 && !Accepts(s.ids, dxpl, DatasetXfer) ==> t == Transition(s, Err(NotPList(DatasetXfer)))
    ensures memSpace >= 0 && fileSpace >= 0 && Accepts(s.ids, dxpl, DatasetXfer) && !Located(s.ids, dset) ==>
      t == Transition(s, Err(NoVolInfo))
    ensures memSpace >= 0 && fileSpace >= 0 && Accepts(s.ids, dxpl, DatasetXfer) && Located(s.ids, dset) ==>
      t.post == s.(log := s.log + [DatasetReadCall(s.ids[dset].obj, s.ids[dset].aux.value, memType, memSpace, fileSpace,
                                                    Resolve(dxpl, s.defaults.datasetXfer), buf, eq)])
    ensures t.ret.Ok? <==> memSpace >= 0 && fileSpace >= 0 && Accepts(s.ids, dxpl, DatasetXfer) && Located(s.ids, dset) && status >= 0
    ensures t.ret.Ok? ==> t.ret.value == status
    ensures t.ret.Err? && |t.post.log| > |s.log| ==> t.ret == Err(BackendFailed)
  {
    if memSpace < 0 || fileSpace < 0 then Transition(s, Err(NotDataspace))
    else
      var dxplR := ResolveList(s.ids, dxpl, DatasetXfer, s.defaults.datasetXfer);
      if dxplR.Err? then Transition(s, Err(dxplR.error))
      else
        var plugin := AuxOf(s.ids, dset);
        if plugin.None? then Transition(s, Err(NoVolInfo))
        else
          var obj := ObjectOf(s.ids, dset);
          if obj.None? then Transition(s, Err(BadLocation))
          else
            var s1 := s.(log := s.log + [DatasetReadCall(obj.value, plugin.value, memType, memSpace, fileSpace, dxplR.value, buf, eq)]);
            if status < 0 then Transition(s1, Err(BackendFailed)) else Transition(s1, Ok(status))
  }
}
