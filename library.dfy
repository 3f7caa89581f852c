/** The FastForward entry points as the C code runs them: step by step over
    the library's mutable state (the identifier table, the next identifier,
    the call log), with early exits on each failed check. Every method is
    proved to do exactly what the matching transition of module H5FF
    describes, and to keep the library invariant. */
module H5FFLibrary {
  import opened H5Types
  import opened H5Registry
  import opened H5FF
  import opened H5FFSession

  class Library {
    /** The identifier table (H5I), objects and property lists alike. */
    var ids: map<Hid, Entry>
    /** The identifier the next registration hands out. */
    var nextId: Hid
    /** H5P_<CLASS>_DEFAULT, fixed once the library is initialised. */
    const defaults: Defaults
    /** H5AC_dxpl_id. */
    const acDxpl: Hid
    /** Every call made into a plugin, oldest first. */
    var log: seq<VolCall>

    /** The library state as a value. */
    function Snapshot(): State
      reads this
    {
      State(ids, nextId, defaults, acDxpl, log)
    }

    ghost predicate Valid()
      reads this
    {
      WellFormed(Snapshot())
    }

    /** An initialised library in state `s`. */
    constructor (s: State)
      requires WellFormed(s)
      ensures Snapshot() == s && Valid()
    {
      ids := s.ids;
      nextId := s.nextId;
      defaults := s.defaults;
      acDxpl := s.acDxpl;
      log := s.log;
    }

    // -------------------------------------------------------------------
    // Registry and plugin primitives.

    /** H5I_register2: the new identifier, or FAIL once the space is used up. */
    method RegisterId(tag: IdType, obj: Obj, aux: Option<Plugin>) returns (id: Hid)
      requires Valid()
      requires tag != BadId && (tag == GenPropList <==> obj.PList?)
      modifies this
      ensures Snapshot() == Register(old(Snapshot()), tag, obj, aux).post
      ensures id == ApiReturn(Register(old(Snapshot()), tag, obj, aux).ret)
      ensures Valid()
    {
      RegisterKeepsWellFormed(Snapshot(), tag, obj, aux);
      if nextId > MAX_ID {
        return FAIL;
      }
      id := nextId;
      ids := ids[id := Entry(tag, obj, aux)];
      nextId := nextId + 1;
    }

    /** H5I_object(plist) then H5P_set(plist, name, &v): an error, or None
        once the property is stored. */
    method StoreProperty(plist: Hid, name: PropName, v: Hid) returns (err: Option<Error>)
      requires Valid()
      modifies this
      ensures CanSet(old(ids), plist, name) ==>
        err.None? && Snapshot() == old(Snapshot()).(ids := old(ids)[plist := WithProp(old(ids)[plist], name, v)])
      ensures !CanSet(old(ids), plist, name) ==>
        err == Some(if plist in old(ids) && old(ids)[plist].obj.PList? then CantSetProperty(name) else PListMissing)
        && Snapshot() == old(Snapshot())
      ensures Valid()
    {
      if plist !in ids || !ids[plist].obj.PList? {
        return Some(PListMissing);
      }
      if name !in ids[plist].obj.props {
        return Some(CantSetProperty(name));
      }
      StoreKeepsWellFormed(Snapshot(), plist, name, v);
      ids := ids[plist := WithProp(ids[plist], name, v)];
      err := None;
    }

    /** The stores H5Dcreate_ff makes into the dataset-creation list `d`,
        stopping at the first that fails. */
    method StoreDatasetCreation(d: Hid, typeId: Hid, spaceId: Hid, lcpl: Hid) returns (err: Option<Error>)
      requires Valid()
      modifies this
      ensures Snapshot() == old(Snapshot()).(ids := StoreDcpl(old(ids), d, typeId, spaceId, lcpl).ids)
      ensures err == StoreDcpl(old(ids), d, typeId, spaceId, lcpl).err
      ensures Valid()
    {
      err := StoreProperty(d, DsetTypeId, typeId);
      if err.Some? {
        return;
      }
      err := StoreProperty(d, DsetSpaceId, spaceId);
      if err.Some? {
        return;
      }
      err := StoreProperty(d, DsetLcplId, lcpl);
    }

    /** A call into a plugin: recorded, and nothing else changes. */
    method CallPlugin(c: VolCall)
      requires Valid()
      modifies this
      ensures Snapshot() == old(Snapshot()).(log := old(log) + [c])
      ensures Valid()
    {
      LogOnlyKeepsWellFormed(Snapshot(), [c]);
      log := log + [c];
    }

    /** The tail shared by the group and dataset entry points: look up the
        parent's object and plugin, call the plugin, register what it made,
        and close it again when registration fails and the entry point
        rolls back. */
    method CallUnderParent(loc: Hid, u: Under, name: string, eq: Hid, reply: Option<Token>) returns (r: Result<Hid>)
      requires Valid()
      modifies this
      ensures Transition(Snapshot(), r) == CallUnder(old(Snapshot()), loc, u, name, eq, reply)
      ensures Valid()
    {
      ghost var s0 := Snapshot();
      var lp := BySelf(TypeOf(ids, loc));
      var obj := ObjectOf(ids, loc);
      if obj.None? {
        return Err(BadLocation);
      }
      var plugin := AuxOf(ids, loc);
      if plugin.None? {
        return Err(NoVolInfo);
      }
      CallPlugin(CallFor(u, obj.value, lp, plugin.value, name, acDxpl, eq));
      ghost var s1 := Snapshot();
      assert s1 == s0.(log := s0.log + [CallFor(u, obj.value, lp, plugin.value, name, acDxpl, eq)]);
      if reply.None? {
        return Err(BackendFailed);
      }
      var id := RegisterId(TagFor(u), Backend(reply.value), plugin);
      if id < 0 {
        assert Snapshot() == s1;
        if HasRollback(u) {
          CallPlugin(CloseFor(u, reply.value, plugin.value, acDxpl, eq));
        }
        return Err(CantRegister);
      }
      assert Register(s1, TagFor(u), Backend(reply.value), plugin).ret == Ok(id);
      r := Ok(id);
    }

    // -------------------------------------------------------------------
    // The entry points.

    /** H5Fcreate_ff. */
    method CreateFile(filename: Option<string>, flags: bv32, fcpl: Hid, fapl: Hid, eq: Hid, reply: Option<Made>) returns (r: Result<Hid>)
      requires Valid()
      modifies this
      ensures Transition(Snapshot(), r) == Fcreate(old(Snapshot()), filename, flags, fcpl, fapl, eq, reply)
      ensures Valid()
    {
      ghost var s0 := Snapshot();
      if filename.None? || filename.value == [] {
        return Err(BadName);
      }
      if flags & !(ACC_EXCL | ACC_TRUNC | ACC_DEBUG) != 0 {
        return Err(BadFlags);
      }
      if flags & ACC_EXCL != 0 && flags & ACC_TRUNC != 0 {
        return Err(ExclusiveFlags);
      }
      var fcplId := fcpl;
      if fcplId == H5P_DEFAULT {
        fcplId := defaults.fileCreate;
      } else if !ListIsA(ids, fcplId, FileCreate) {
        return Err(NotPList(FileCreate));
      }
      var faplId := fapl;
      if faplId == H5P_DEFAULT {
        faplId := defaults.fileAccess;
      } else if !ListIsA(ids, faplId, FileAccess) {
        return Err(NotPList(FileAccess));
      }
      assert FcreateArgsOk(s0.ids, filename, flags, fcpl, fapl);
      assert fcplId == Resolve(fcpl, defaults.fileCreate) && faplId == Resolve(fapl, defaults.fileAccess);
      CallPlugin(FileCreateCall(filename.value, flags, fcplId, faplId, acDxpl, eq));
      if reply.None? {
        return Err(BackendFailed);
      }
      var id := RegisterId(FileId, Backend(reply.value.token), Some(reply.value.plugin));
      if id < 0 {
        return Err(CantRegister);
      }
      r := Ok(id);
    }

    /** H5Fopen_ff. */
    method OpenFile(filename: Option<string>, flags: bv32, fapl: Hid, eq: Hid, reply: Option<Made>) returns (r: Result<Hid>)
      requires Valid()
      modifies this
      ensures Transition(Snapshot(), r) == Fopen(old(Snapshot()), filename, flags, fapl, eq, reply)
      ensures Valid()
    {
      ghost var s0 := Snapshot();
      if filename.None? || filename.value == [] {
        return Err(BadName);
      }
      if flags & !ACC_PUBLIC_FLAGS != 0 || flags & ACC_TRUNC != 0 || flags & ACC_EXCL != 0 {
        return Err(BadFlags);
      }
      var faplId := fapl;
      if faplId == H5P_DEFAULT {
        faplId := defaults.fileAccess;
      } else if !ListIsA(ids, faplId, FileAccess) {
        return Err(NotPList(FileAccess));
      }
      assert FopenArgsOk(s0.ids, filename, flags, fapl) && faplId == Resolve(fapl, defaults.fileAccess);
      CallPlugin(FileOpenCall(filename.value, flags, faplId, acDxpl, eq));
      if reply.None? {
        return Err(BackendFailed);
      }
      var id := RegisterId(FileId, Backend(reply.value.token), Some(reply.value.plugin));
      if id < 0 {
        return Err(CantRegister);
      }
      r := Ok(id);
    }

    /** H5Gcreate_ff. */
    method CreateGroup(loc: Hid, name: Option<string>, lcpl: Hid, gcpl: Hid, gapl: Hid, trans: Uint64, eq: Hid,
                       reply: Option<Token>) returns (r: Result<Hid>)
      requires Valid()
      modifies this
      ensures Transition(Snapshot(), r) == Gcreate(old(Snapshot()), loc, name, lcpl, gcpl, gapl, trans, eq, reply)
      ensures Valid()
    {
      ghost var s0 := Snapshot();
      if name.None? || name.value == [] {
        return Err(BadName);
      }
      var lcplId := lcpl;
      if lcplId == H5P_DEFAULT {
        lcplId := defaults.linkCreate;
      } else if !ListIsA(ids, lcplId, LinkCreate) {
        return Err(NotPList(LinkCreate));
      }
      var gcplId := gcpl;
      if gcplId == H5P_DEFAULT {
        gcplId := defaults.groupCreate;
      } else if !ListIsA(ids, gcplId, GroupCreate) {
        return Err(NotPList(GroupCreate));
      }
      var gaplId := gapl;
      if gaplId == H5P_DEFAULT {
        gaplId := defaults.groupAccess;
      } else if !ListIsA(ids, gaplId, GroupAccess) {
        return Err(NotPList(GroupAccess));
      }
      assert GcreateArgsOk(s0.ids, name, lcpl, gcpl, gapl);
      assert lcplId == Resolve(lcpl, defaults.linkCreate) && gcplId == Resolve(gcpl, defaults.groupCreate);
      var err := StoreProperty(gcplId, GroupLcplId, lcplId);
      if err.Some? {
        return Err(err.value);
      }
      assert ids == SetProp(s0.ids, gcplId, GroupLcplId, lcplId).value;
      r := CallUnderParent(loc, GroupCreating(gcplId, gaplId), name.value, eq, reply);
    }

    /** H5Gopen_ff. */
    method OpenGroup(loc: Hid, name: Option<string>, gapl: Hid, trans: Uint64, eq: Hid, reply: Option<Token>) returns (r: Result<Hid>)
      requires Valid()
      modifies this
      ensures Transition(Snapshot(), r) == Gopen(old(Snapshot()), loc, name, gapl, trans, eq, reply)
      ensures Valid()
    {
      if name.None? || name.value == [] {
        return Err(BadName);
      }
      var gaplId := gapl;
      if gaplId == H5P_DEFAULT {
        gaplId := defaults.groupAccess;
      } else if !ListIsA(ids, gaplId, GroupAccess) {
        return Err(NotPList(GroupAccess));
      }
      r := CallUnderParent(loc, GroupOpening(gaplId), name.value, eq, reply);
    }

    /** H5Dcreate_ff. */
    method CreateDataset(loc: Hid, name: Option<string>, typeId: Hid, spaceId: Hid, lcpl: Hid, dcpl: Hid, dapl: Hid,
                         trans: Uint64, eq: Hid, reply: Option<Token>) returns (r: Result<Hid>)
      requires Valid()
      modifies this
      ensures Transition(Snapshot(), r) == Dcreate(old(Snapshot()), loc, name, typeId, spaceId, lcpl, dcpl, dapl, trans, eq, reply)
      ensures Valid()
    {
      if name.None? || name.value == [] {
        return Err(BadName);
      }
      var lcplId := lcpl;
      if lcplId == H5P_DEFAULT {
        lcplId := defaults.linkCreate;
      } else if !ListIsA(ids, lcplId, LinkCreate) {
        return Err(NotPList(LinkCreate));
      }
      var dcplId := dcpl;
      if dcplId == H5P_DEFAULT {
        dcplId := defaults.datasetCreate;
      } else if !ListIsA(ids, dcplId, DatasetCreate) {
        return Err(NotPList(DatasetCreate));
      }
      var daplId := dapl;
      if daplId == H5P_DEFAULT {
        daplId := defaults.datasetAccess;
      } else if !ListIsA(ids, daplId, DatasetAccess) {
        return Err(NotPList(DatasetAccess));
      }
      var err := StoreDatasetCreation(dcplId, typeId, spaceId, lcplId);
      if err.Some? {
        return Err(err.value);
      }
      r := CallUnderParent(loc, DatasetCreating(dcplId, daplId), name.value, eq, reply);
    }

    /** H5Dopen_ff. */
    method OpenDataset(loc: Hid, name: Option<string>, dapl: Hid, trans: Uint64, eq: Hid, reply: Option<Token>) returns (r: Result<Hid>)
      requires Valid()
      modifies this
      ensures Transition(Snapshot(), r) == Dopen(old(Snapshot()), loc, name, dapl, trans, eq, reply)
      ensures Valid()
    {
      if name.None? || name.value == [] {
        return Err(BadName);
      }
      var daplId := dapl;
      if daplId == H5P_DEFAULT {
        daplId := defaults.datasetAccess;
      } else if !ListIsA(ids, daplId, DatasetAccess) {
        return Err(NotPList(DatasetAccess));
      }
      r := CallUnderParent(loc, DatasetOpening(daplId), name.value, eq, reply);
    }

    /** H5Dwrite_ff; `status` is what the plugin's write returns. */
    method WriteDataset(dset: Hid, memType: Hid, memSpace: Hid, fileSpace: Hid, dxpl: Hid, buf: Buffer,
                        trans: Uint64, eq: Hid, status: int) returns (r: Result<int>)
      requires Valid()
      modifies this
      ensures Transition(Snapshot(), r) == Dwrite(old(Snapshot()), dset, memType, memSpace, fileSpace, dxpl, buf, trans, eq, status)
      ensures Valid()
    {
      if dset == 0 {
        return Err(NotDataset);
      }
      var dxplId := dxpl;
      if dxplId == H5P_DEFAULT {
        dxplId := defaults.datasetXfer;
      } else if !ListIsA(ids, dxplId, DatasetXfer) {
        return Err(NotPList(DatasetXfer));
      }
      var plugin := AuxOf(ids, dset);
      if plugin.None? {
        return Err(NoVolInfo);
      }
      var obj := ObjectOf(ids, dset);
      if obj.None? {
        return Err(BadLocation);
      }
      CallPlugin(DatasetWriteCall(obj.value, plugin.value, memType, memSpace, fileSpace, dxplId, buf, eq));
      if status < 0 {
        return Err(BackendFailed);
      }
      r := Ok(status);
    }

    /** H5Dread_ff; `status` is what the plugin's read returns. */
    method ReadDataset(dset: Hid, memType: Hid, memSpace: Hid, fileSpace: Hid, dxpl: Hid, buf: Buffer,
                       trans: Uint64, eq: Hid, status: int) returns (r: Result<int>)
      requires Valid()
      modifies this
      ensures Transition(Snapshot(), r) == Dread(old(Snapshot()), dset, memType, memSpace, fileSpace, dxpl, buf, trans, eq, status)
      ensures Valid()
    {
      if memSpace < 0 || fileSpace < 0 {
        return Err(NotDataspace);
      }
      var dxplId := dxpl;
      if dxplId == H5P_DEFAULT {
        dxplId := defaults.datasetXfer;
      } else if !ListIsA(ids, dxplId, DatasetXfer) {
        return Err(NotPList(DatasetXfer));
      }
      var plugin := AuxOf(ids, dset);
      if plugin.None? {
        return Err(NoVolInfo);
      }
      var obj := ObjectOf(ids, dset);
      if obj.None? {
        return Err(BadLocation);
      }
      CallPlugin(DatasetReadCall(obj.value, plugin.value, memType, memSpace, fileSpace, dxplId, buf, eq));
      if status < 0 {
        return Err(BackendFailed);
      }
      r := Ok(status);
    }
  }
}
