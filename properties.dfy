/** Properties of the FastForward entry points that hold across calls or
    compare entry points with each other: argument validation comes before
    any lookup or plugin call, a failed call leaves no identifier behind, new
    identifiers carry the right plugin, rollback on registration failure is
    done by some entry points and not by others, the transaction number is
    never used, and a file, a group and a dataset made in turn all route to
    the plugin the file was made by. */
module H5FFProperties {
  import opened H5Types
  import opened H5Registry
  import opened H5FF
  import opened H5FFSession

  /** The argument checks of each entry point, made before anything is
      looked up in the table or sent to a plugin, all pass. */
  predicate ArgsOk(ids: map<Hid, Entry>, c: ApiCall) {
    match c
    case FcreateOp(filename, flags, fcpl, fapl, _, _) => FcreateArgsOk(ids, filename, flags, fcpl, fapl)
    case FopenOp(filename, flags, fapl, _, _) => FopenArgsOk(ids, filename, flags, fapl)
    case GcreateOp(_, name, lcpl, gcpl, gapl, _, _, _) => GcreateArgsOk(ids, name, lcpl, gcpl, gapl)
    case GopenOp(_, name, gapl, _, _, _) => GopenArgsOk(ids, name, gapl)
    case DcreateOp(_, name, _, _, lcpl, dcpl, dapl, _, _, _) => DcreateArgsOk(ids, name, lcpl, dcpl, dapl)
    case DopenOp(_, name, dapl, _, _, _) => DopenArgsOk(ids, name, dapl)
    case DwriteOp(dset, _, _, _, dxpl, _, _, _, _) => dset != 0 && Accepts(ids, dxpl, DatasetXfer)
    case DreadOp(_, _, memSpace, fileSpace, dxpl, _, _, _, _) => memSpace >= 0 && fileSpace >= 0 && Accepts(ids, dxpl, DatasetXfer)
  }

  /** The calls that make or open an object and register it. */
  predicate Registers(c: ApiCall) {
    !c.DwriteOp? && !c.DreadOp?
  }

  /** The type tag a registering call gives its new identifier. */
  function TagOf(c: ApiCall): IdType {
    match c
    case FcreateOp(_, _, _, _, _, _) => FileId
    case FopenOp(_, _, _, _, _) => FileId
    case GcreateOp(_, _, _, _, _, _, _, _) => GroupId
    case GopenOp(_, _, _, _, _, _) => GroupId
    case _ => DatasetId
  }

  /** Every registered identifier lies below the next one to hand out. */
  predicate Below(s: State) {
    forall id :: id in s.ids ==> id < s.nextId
  }

  /** A call whose arguments fail their checks fails, and changes nothing:
      no lookup has consequences, no plugin is called, no list is written. */
  lemma RejectedCallChangesNothing(s: State, c: ApiCall)
    requires !ArgsOk(s.ids, c)
    ensures Apply(s, c).post == s && Apply(s, c).ret.Err?
  {
    match c
    case FcreateOp(filename, flags, fcpl, fapl, eq, reply) =>
      assert Apply(s, c) == Fcreate(s, filename, flags, fcpl, fapl, eq, reply);
    case FopenOp(filename, flags, fapl, eq, reply) =>
      assert Apply(s, c) == Fopen(s, filename, flags, fapl, eq, reply);
    case GcreateOp(loc, name, lcpl, gcpl, gapl, trans, eq, reply) =>
      assert Apply(s, c) == Gcreate(s, loc, name, lcpl, gcpl, gapl, trans, eq, reply);
    case GopenOp(loc, name, gapl, trans, eq, reply) =>
      assert Apply(s, c) == Gopen(s, loc, name, gapl, trans, eq, reply);
    case DcreateOp(loc, name, typeId, spaceId, lcpl, dcpl, dapl, trans, eq, reply) =>
      assert Apply(s, c) == Dcreate(s, loc, name, typeId, spaceId, lcpl, dcpl, dapl, trans, eq, reply);
    case DopenOp(loc, name, dapl, trans, eq, reply) =>
      assert Apply(s, c) == Dopen(s, loc, name, dapl, trans, eq, reply);
    case DwriteOp(dset, memType, memSpace, fileSpace, dxpl, buf, trans, eq, status) =>
      assert Apply(s, c) == Dwrite(s, dset, memType, memSpace, fileSpace, dxpl, buf, trans, eq, status);
    case DreadOp(dset, memType, memSpace, fileSpace, dxpl, buf, trans, eq, status) =>
      assert Apply(s, c) == Dread(s, dset, memType, memSpace, fileSpace, dxpl, buf, trans, eq, status);
  }

  /** A failed call leaves no identifier behind and uses none up; a write
      or a read never changes the identifier table. */
  lemma FailedCallAddsNoIdentifier(s: State, c: ApiCall)
    ensures var t := Apply(s, c);
      t.ret.Err? ==> t.post.ids.Keys == s.ids.Keys && t.post.nextId == s.nextId
    ensures var t := Apply(s, c);
      !Registers(c) ==> t.post.ids == s.ids && t.post.nextId == s.nextId
  {
    var t := Apply(s, c);
    match c
    case FcreateOp(filename, flags, fcpl, fapl, eq, reply) =>
      assert t == Fcreate(s, filename, flags, fcpl, fapl, eq, reply);
    case FopenOp(filename, flags, fapl, eq, reply) =>
      assert t == Fopen(s, filename, flags, fapl, eq, reply);
    case GcreateOp(loc, name, lcpl, gcpl, gapl, trans, eq, reply) =>
      assert t == Gcreate(s, loc, name, lcpl, gcpl, gapl, trans, eq, reply);
    case GopenOp(loc, name, gapl, trans, eq, reply) =>
      assert t == Gopen(s, loc, name, gapl, trans, eq, reply);
    case DcreateOp(loc, name, typeId, spaceId, lcpl, dcpl, dapl, trans, eq, reply) =>
      assert t == Dcreate(s, loc, name, typeId, spaceId, lcpl, dcpl, dapl, trans, eq, reply);
    case DopenOp(loc, name, dapl, trans, eq, reply) =>
      assert t == Dopen(s, loc, name, dapl, trans, eq, reply);
    case DwriteOp(dset, memType, memSpace, fileSpace, dxpl, buf, trans, eq, status) =>
      assert t == Dwrite(s, dset, memType, memSpace, fileSpace, dxpl, buf, trans, eq, status);
    case DreadOp(dset, memType, memSpace, fileSpace, dxpl, buf, trans, eq, status) =>
      assert t == Dread(s, dset, memType, memSpace, fileSpace, dxpl, buf, trans, eq, status);
  }

  /** A successful create or open adds exactly one identifier, the next in
      order and not in use before, tagged with the kind of object made. */
  lemma SuccessfulCallRegistersOne(s: State, c: ApiCall)
    requires Below(s) && Registers(c) && Apply(s, c).ret.Ok?
    ensures var t := Apply(s, c);
      && t.ret.value == s.nextId && t.ret.value !in s.ids
      && t.post.ids.Keys == s.ids.Keys + {t.ret.value} && t.post.nextId == s.nextId + 1
      && t.post.ids[t.ret.value].tag == TagOf(c)
  {
    var t := Apply(s, c);
    match c
    case FcreateOp(filename, flags, fcpl, fapl, eq, reply) =>
      assert t == Fcreate(s, filename, flags, fcpl, fapl, eq, reply);
    case FopenOp(filename, flags, fapl, eq, reply) =>
      assert t == Fopen(s, filename, flags, fapl, eq, reply);
    case GcreateOp(loc, name, lcpl, gcpl, gapl, trans, eq, reply) =>
      assert t == Gcreate(s, loc, name, lcpl, gcpl, gapl, trans, eq, reply);
    case GopenOp(loc, name, gapl, trans, eq, reply) =>
      assert t == Gopen(s, loc, name, gapl, trans, eq, reply);
    case DcreateOp(loc, name, typeId, spaceId, lcpl, dcpl, dapl, trans, eq, reply) =>
      assert t == Dcreate(s, loc, name, typeId, spaceId, lcpl, dcpl, dapl, trans, eq, reply);
    case DopenOp(loc, name, dapl, trans, eq, reply) =>
      assert t == Dopen(s, loc, name, dapl, trans, eq, reply);
  }

  /** A new file identifier carries the plugin that made the file; a new
      group or dataset identifier carries the plugin of the identifier it was
      made under. */
  lemma NewIdentifierPlugin(s: State, c: ApiCall)
    requires Apply(s, c).ret.Ok? && Registers(c)
    ensures var t := Apply(s, c);
      t.ret.value in t.post.ids &&
      t.post.ids[t.ret.value].aux ==
        (if c.FcreateOp? || c.FopenOp? then Some(c.fileReply.value.plugin) else s.ids[c.loc].aux)
  {
    var t := Apply(s, c);
    match c
    case FcreateOp(filename, flags, fcpl, fapl, eq, reply) =>
      assert t == Fcreate(s, filename, flags, fcpl, fapl, eq, reply);
    case FopenOp(filename, flags, fapl, eq, reply) =>
      assert t == Fopen(s, filename, flags, fapl, eq, reply);
    case GcreateOp(loc, name, lcpl, gcpl, gapl, trans, eq, reply) =>
      assert t == Gcreate(s, loc, name, lcpl, gcpl, gapl, trans, eq, reply);
    case GopenOp(loc, name, gapl, trans, eq, reply) =>
      assert t == Gopen(s, loc, name, gapl, trans, eq, reply);
    case DcreateOp(loc, name, typeId, spaceId, lcpl, dcpl, dapl, trans, eq, reply) =>
      assert t == Dcreate(s, loc, name, typeId, spaceId, lcpl, dcpl, dapl, trans, eq, reply);
    case DopenOp(loc, name, dapl, trans, eq, reply) =>
      assert t == Dopen(s, loc, name, dapl, trans, eq, reply);
  }

  /** The transaction number of a group or dataset call changes neither the
      state after it nor its result. */
  lemma TransIgnored(s: State, c: ApiCall, trans: Uint64)
    requires !c.FcreateOp? && !c.FopenOp?
    ensures Apply(s, c.(trans := trans)) == Apply(s, c)
  {
  }

  /** The flag words H5Fcreate_ff accepts: any combination of TRUNC, EXCL
      and DEBUG except TRUNC with EXCL. */
  lemma CreateFlagsAccepted(flags: bv32)
    ensures CreateFlagsCheck(flags).None? <==>
      flags in {0, ACC_TRUNC, ACC_EXCL, ACC_DEBUG, ACC_TRUNC | ACC_DEBUG, ACC_EXCL | ACC_DEBUG}
  {
  }

  /** The flag words H5Fopen_ff accepts: public flags only, and neither TRUNC
      nor EXCL; so RDWR, DEBUG and CREAT pass. */
  lemma OpenFlagsAccepted(flags: bv32)
    ensures OpenFlagsCheck(flags).None? <==> flags <= ACC_PUBLIC_FLAGS && flags & (ACC_TRUNC | ACC_EXCL) == 0
    ensures OpenFlagsCheck(ACC_RDWR | ACC_CREAT).None?
  {
  }

  /** When the identifier space is used up, every entry point that reaches
      its plugin fails with the object the plugin made left unregistered;
      H5Gcreate_ff, H5Dcreate_ff and H5Dopen_ff then close that object
      through the same plugin and eq_id, while H5Fcreate_ff, H5Fopen_ff and
      H5Gopen_ff make no further call. */
  lemma RollbackIsAsymmetric(s: State, loc: Hid, name: string, made: Token, p: Plugin, eq: Hid, trans: Uint64,
                              lcpl: Hid, gcpl: Hid, gapl: Hid, dcpl: Hid, dapl: Hid, typeId: Hid, spaceId: Hid,
                              fcpl: Hid, fapl: Hid, createFlags: bv32, openFlags: bv32)
    requires s.nextId > MAX_ID && Located(s.ids, loc)
    requires GcreateArgsOk(s.ids, Some(name), lcpl, gcpl, gapl)
    requires CanSet(s.ids, Resolve(gcpl, s.defaults.groupCreate), GroupLcplId)
    requires DcreateArgsOk(s.ids, Some(name), lcpl, dcpl, dapl)
    requires DcplStorable(s.ids, Resolve(dcpl, s.defaults.datasetCreate))
    requires DopenArgsOk(s.ids, Some(name), dapl) && GopenArgsOk(s.ids, Some(name), gapl)
    requires FcreateArgsOk(s.ids, Some(name), createFlags, fcpl, fapl) && FopenArgsOk(s.ids, Some(name), openFlags, fapl)
    ensures var g := Gcreate(s, loc, Some(name), lcpl, gcpl, gapl, trans, eq, Some(made));
      g.ret == Err(CantRegister) && |g.post.log| == |s.log| + 2 &&
      g.post.log[|s.log| + 1] == GroupCloseCall(made, s.ids[loc].aux.value, s.acDxpl, eq)
    ensures var d := Dcreate(s, loc, Some(name), typeId, spaceId, lcpl, dcpl, dapl, trans, eq, Some(made));
      d.ret == Err(CantRegister) && |d.post.log| == |s.log| + 2 &&
      d.post.log[|s.log| + 1] == DatasetCloseCall(made, s.ids[loc].aux.value, s.acDxpl, eq)
    ensures var o := Dopen(s, loc, Some(name), dapl, trans, eq, Some(made));
      o.ret == Err(CantRegister) && |o.post.log| == |s.log| + 2 &&
      o.post.log[|s.log| + 1] == DatasetCloseCall(made, s.ids[loc].aux.value, s.acDxpl, eq)
    ensures var o := Gopen(s, loc, Some(name), gapl, trans, eq, Some(made));
      o.ret == Err(CantRegister) && |o.post.log| == |s.log| + 1 && o.post.ids == s.ids
    ensures var f := Fcreate(s, Some(name), createFlags, fcpl, fapl, eq, Some(Made(made, p)));
      f.ret == Err(CantRegister) && |f.post.log| == |s.log| + 1 && f.post.ids == s.ids
    ensures var f := Fopen(s, Some(name), openFlags, fapl, eq, Some(Made(made, p)));
      f.ret == Err(CantRegister) && |f.post.log| == |s.log| + 1 && f.post.ids == s.ids
  {
  }

  /** H5Gcreate_ff stores the link-creation list into the group-creation
      list before it looks the parent up, so a call that then fails for want
      of a parent object or plugin still leaves the (by default, process-wide)
      group-creation list changed. */
  lemma GcreateStoreSurvivesFailure(s: State, loc: Hid, name: string, lcpl: Hid, trans: Uint64, eq: Hid, reply: Option<Token>)
    requires WellFormed(s)
    requires name != [] && Accepts(s.ids, lcpl, LinkCreate)
    requires GroupLcplId in s.ids[s.defaults.groupCreate].obj.props
    requires !Located(s.ids, loc)
    ensures var t := Gcreate(s, loc, Some(name), lcpl, H5P_DEFAULT, H5P_DEFAULT, trans, eq, reply);
      && t.ret.Err? && t.post.log == s.log
      && t.post.ids[s.defaults.groupCreate].obj.props[GroupLcplId] == Resolve(lcpl, s.defaults.linkCreate)
  {
    var g := s.defaults.groupCreate;
    var t := Gcreate(s, loc, Some(name), lcpl, H5P_DEFAULT, H5P_DEFAULT, trans, eq, reply);
    assert GcreateArgsOk(s.ids, Some(name), lcpl, H5P_DEFAULT, H5P_DEFAULT);
    assert CanSet(s.ids, g, GroupLcplId);
    assert !t.ret.Ok?;
    assert g != s.nextId;
    assert g in t.post.ids - {s.nextId};
    assert t.post.ids[g] == (t.post.ids - {s.nextId})[g];
  }

  /** H5Dwrite_ff checks only that the identifier is not 0: an identifier of
      any other type that carries a plugin, a group for one, is passed on to
      the plugin's dataset write. */
  lemma DwriteDoesNotCheckType(s: State, id: Hid, memType: Hid, memSpace: Hid, fileSpace: Hid, buf: Buffer,
                               trans: Uint64, eq: Hid, status: int)
    requires id != 0 && Located(s.ids, id) && s.ids[id].tag == GroupId && status >= 0
    ensures var t := Dwrite(s, id, memType, memSpace, fileSpace, H5P_DEFAULT, buf, trans, eq, status);
      t.ret == Ok(status) &&
      t.post.log == s.log + [DatasetWriteCall(s.ids[id].obj, s.ids[id].aux.value, memType, memSpace, fileSpace,
                                              s.defaults.datasetXfer, buf, eq)]
  {
  }

  // ---------------------------------------------------------------------
  // A whole session: file, group, dataset, write.

  /** The session that creates a file, a group in it, a dataset in the
      group, and writes to the dataset, all with default lists. */
  function MakeAndWrite(name: string, p: Plugin, fileTok: Token, groupTok: Token, dsetTok: Token,
                        f: Hid, typeId: Hid, spaceId: Hid, buf: Buffer, eq: Hid): seq<ApiCall>
  {
    var g := f + 1;
    var d := f + 2;
    [ FcreateOp(Some(name), ACC_TRUNC, H5P_DEFAULT, H5P_DEFAULT, eq, Some(Made(fileTok, p))),
      GcreateOp(f, Some(name), H5P_DEFAULT, H5P_DEFAULT, H5P_DEFAULT, 0, eq, Some(groupTok)),
      DcreateOp(g, Some(name), typeId, spaceId, H5P_DEFAULT, H5P_DEFAULT, H5P_DEFAULT, 0, eq, Some(dsetTok)),
      DwriteOp(d, typeId, spaceId, spaceId, H5P_DEFAULT, buf, 0, eq, 0) ]
  }

  /** H5Fcreate_ff with default lists, as the first call of the session. */
  lemma FileStep(s: State, name: string, p: Plugin, tok: Token, eq: Hid)
    requires Below(s) && s.nextId <= MAX_ID && name != []
    ensures var s1 := Step(s, FcreateOp(Some(name), ACC_TRUNC, H5P_DEFAULT, H5P_DEFAULT, eq, Some(Made(tok, p))));
      && Below(s1) && s1.nextId == s.nextId + 1
      && s1.ids == s.ids[s.nextId := Entry(FileId, Backend(tok), Some(p))]
      && |s1.log| == |s.log| + 1 && s1.defaults == s.defaults
  {
    assert Step(s, FcreateOp(Some(name), ACC_TRUNC, H5P_DEFAULT, H5P_DEFAULT, eq, Some(Made(tok, p)))) == Fcreate(s, Some(name), ACC_TRUNC, H5P_DEFAULT, H5P_DEFAULT, eq, Some(Made(tok, p))).post;
    assert FcreateArgsOk(s.ids, Some(name), ACC_TRUNC, H5P_DEFAULT, H5P_DEFAULT) by {
      assert CreateFlagsCheck(ACC_TRUNC).None?;
    }
  }

  /** H5Gcreate_ff with default lists under `loc`: only the new identifier
      and the default group-creation list change. */
  lemma GroupStep(s: State, loc: Hid, name: string, tok: Token, eq: Hid)
    requires Below(s) && s.nextId <= MAX_ID && name != [] && Located(s.ids, loc)
    requires CanSet(s.ids, s.defaults.groupCreate, GroupLcplId)
    ensures var s2 := Step(s, GcreateOp(loc, Some(name), H5P_DEFAULT, H5P_DEFAULT, H5P_DEFAULT, 0, eq, Some(tok)));
      && Below(s2) && s2.nextId == s.nextId + 1
      && s2.ids.Keys == s.ids.Keys + {s.nextId}
      && s2.ids[s.nextId] == Entry(GroupId, Backend(tok), s.ids[loc].aux)
      && (forall id :: id in s.ids && id != s.defaults.groupCreate ==> s2.ids[id] == s.ids[id])
      && |s2.log| == |s.log| + 1 && s2.defaults == s.defaults
  {
    assert Step(s, GcreateOp(loc, Some(name), H5P_DEFAULT, H5P_DEFAULT, H5P_DEFAULT, 0, eq, Some(tok))) == Gcreate(s, loc, Some(name), H5P_DEFAULT, H5P_DEFAULT, H5P_DEFAULT, 0, eq, Some(tok)).post;
    var t := Gcreate(s, loc, Some(name), H5P_DEFAULT, H5P_DEFAULT, H5P_DEFAULT, 0, eq, Some(tok));
    assert GcreateArgsOk(s.ids, Some(name), H5P_DEFAULT, H5P_DEFAULT, H5P_DEFAULT);
    var g := s.defaults.groupCreate;
    var rest := s.ids[g := WithProp(s.ids[g], GroupLcplId, s.defaults.linkCreate)] - {s.nextId};
    assert t.post.ids - {s.nextId} == rest;
    forall id | id in s.ids && id != g
      ensures t.post.ids[id] == s.ids[id]
    {
      assert (t.post.ids - {s.nextId})[id] == rest[id];
    }
  }

  /** H5Dcreate_ff with default lists under `loc`: only the new identifier
      and the default dataset-creation list change. */
  lemma DatasetStep(s: State, loc: Hid, name: string, typeId: Hid, spaceId: Hid, tok: Token, eq: Hid)
    requires Below(s) && s.nextId <= MAX_ID && name != [] && Located(s.ids, loc)
    requires DcplStorable(s.ids, s.defaults.datasetCreate)
    ensures var s3 := Step(s, DcreateOp(loc, Some(name), typeId, spaceId, H5P_DEFAULT, H5P_DEFAULT, H5P_DEFAULT, 0, eq, Some(tok)));
      && Below(s3) && s3.nextId == s.nextId + 1
      && s3.ids.Keys == s.ids.Keys + {s.nextId}
      && s3.ids[s.nextId] == Entry(DatasetId, Backend(tok), s.ids[loc].aux)
      && (forall id :: id in s.ids && id != s.defaults.datasetCreate ==> s3.ids[id] == s.ids[id])
      && |s3.log| == |s.log| + 1 && s3.defaults == s.defaults
  {
    assert Step(s, DcreateOp(loc, Some(name), typeId, spaceId, H5P_DEFAULT, H5P_DEFAULT, H5P_DEFAULT, 0, eq, Some(tok))) == Dcreate(s, loc, Some(name), typeId, spaceId, H5P_DEFAULT, H5P_DEFAULT, H5P_DEFAULT, 0, eq, Some(tok)).post;
    var t := Dcreate(s, loc, Some(name), typeId, spaceId, H5P_DEFAULT, H5P_DEFAULT, H5P_DEFAULT, 0, eq, Some(tok));
    assert DcreateArgsOk(s.ids, Some(name), H5P_DEFAULT, H5P_DEFAULT, H5P_DEFAULT);
    var d := s.defaults.datasetCreate;
    var rest := s.ids[d := DcplStored(s.ids[d], typeId, spaceId, s.defaults.linkCreate)] - {s.nextId};
    assert t.post.ids - {s.nextId} == rest;
    forall id | id in s.ids && id != d
      ensures t.post.ids[id] == s.ids[id]
    {
      assert (t.post.ids - {s.nextId})[id] == rest[id];
    }
  }

  /** H5Dwrite_ff with the default transfer list on a dataset identifier
      that carries a plugin, answered with status 0. */
  lemma WriteStep(s: State, d: Hid, typeId: Hid, spaceId: Hid, buf: Buffer, eq: Hid)
    requires d != 0 && Located(s.ids, d)
    ensures Step(s, DwriteOp(d, typeId, spaceId, spaceId, H5P_DEFAULT, buf, 0, eq, 0)) ==
      s.(log := s.log + [DatasetWriteCall(s.ids[d].obj, s.ids[d].aux.value, typeId, spaceId, spaceId, s.defaults.datasetXfer, buf, eq)])
  {
    assert Step(s, DwriteOp(d, typeId, spaceId, spaceId, H5P_DEFAULT, buf, 0, eq, 0)) ==
      Dwrite(s, d, typeId, spaceId, spaceId, H5P_DEFAULT, buf, 0, eq, 0).post;
  }

  /** The first three calls of the session: the file, the group and the
      dataset get the next three identifiers, all carrying the file's plugin. */
  lemma MakeThree(s: State, name: string, p: Plugin, fileTok: Token, groupTok: Token, dsetTok: Token,
                  typeId: Hid, spaceId: Hid, eq: Hid)
    requires Below(s) && 0 < s.nextId && s.nextId + 2 <= MAX_ID && name != []
    requires s.defaults.groupCreate != s.defaults.datasetCreate
    requires CanSet(s.ids, s.defaults.groupCreate, GroupLcplId)
    requires DcplStorable(s.ids, s.defaults.datasetCreate)
    ensures var f := s.nextId;
      var s3 := Step(Step(Step(s, FcreateOp(Some(name), ACC_TRUNC, H5P_DEFAULT, H5P_DEFAULT, eq, Some(Made(fileTok, p)))),
                          GcreateOp(f, Some(name), H5P_DEFAULT, H5P_DEFAULT, H5P_DEFAULT, 0, eq, Some(groupTok))),
                     DcreateOp(f + 1, Some(name), typeId, spaceId, H5P_DEFAULT, H5P_DEFAULT, H5P_DEFAULT, 0, eq, Some(dsetTok)));
      && s3.nextId == f + 3 && s3.defaults == s.defaults && |s3.log| == |s.log| + 3
      && f in s3.ids && s3.ids[f] == Entry(FileId, Backend(fileTok), Some(p))
      && f + 1 in s3.ids && s3.ids[f + 1] == Entry(GroupId, Backend(groupTok), Some(p))
      && f + 2 in s3.ids && s3.ids[f + 2] == Entry(DatasetId, Backend(dsetTok), Some(p))
  {
    var f := s.nextId;
    var gd := s.defaults.groupCreate;
    var dd := s.defaults.datasetCreate;
    FileStep(s, name, p, fileTok, eq);
    var s1 := Step(s, FcreateOp(Some(name), ACC_TRUNC, H5P_DEFAULT, H5P_DEFAULT, eq, Some(Made(fileTok, p))));
    assert s1.ids[gd] == s.ids[gd] && s1.ids[dd] == s.ids[dd];
    GroupStep(s1, f, name, groupTok, eq);
    var s2 := Step(s1, GcreateOp(f, Some(name), H5P_DEFAULT, H5P_DEFAULT, H5P_DEFAULT, 0, eq, Some(groupTok)));
    assert s2.ids[f] == s1.ids[f] && s2.ids[dd] == s1.ids[dd];
    DatasetStep(s2, f + 1, name, typeId, spaceId, dsetTok, eq);
  }

  /** With room for three identifiers, the file, group and dataset get the
      next three identifiers in order, all three carry the plugin the file
      was made by, and the write reaches that plugin with the dataset the
      plugin made. */
  lemma MakeAndWriteRoutesToFilePlugin(s: State, name: string, p: Plugin, fileTok: Token, groupTok: Token, dsetTok: Token,
                                       typeId: Hid, spaceId: Hid, buf: Buffer, eq: Hid)
    requires Below(s) && 0 < s.nextId && s.nextId + 2 <= MAX_ID && name != []
    requires s.defaults.groupCreate != s.defaults.datasetCreate
    requires CanSet(s.ids, s.defaults.groupCreate, GroupLcplId)
    requires DcplStorable(s.ids, s.defaults.datasetCreate)
    ensures var f := s.nextId;
      var post := Run(s, MakeAndWrite(name, p, fileTok, groupTok, dsetTok, f, typeId, spaceId, buf, eq));
      && post.nextId == f + 3
      && f in post.ids && post.ids[f] == Entry(FileId, Backend(fileTok), Some(p))
      && f + 1 in post.ids && post.ids[f + 1] == Entry(GroupId, Backend(groupTok), Some(p))
      && f + 2 in post.ids && post.ids[f + 2] == Entry(DatasetId, Backend(dsetTok), Some(p))
      && |post.log| == |s.log| + 4
      && post.log[|s.log| + 3] == DatasetWriteCall(Backend(dsetTok), p, typeId, spaceId, spaceId, s.defaults.datasetXfer, buf, eq)
  {
    var cs := MakeAndWrite(name, p, fileTok, groupTok, dsetTok, s.nextId, typeId, spaceId, buf, eq);
    RunOfFour(s, cs);
    MakeThree(s, name, p, fileTok, groupTok, dsetTok, typeId, spaceId, eq);
    WriteStep(Step(Step(Step(s, cs[0]), cs[1]), cs[2]), s.nextId + 2, typeId, spaceId, buf, eq);
  }

  /** A run of four calls is the four steps in turn. */
  lemma RunOfFour(s: State, cs: seq<ApiCall>)
    requires |cs| == 4
    ensures Run(s, cs) == Step(Step(Step(Step(s, cs[0]), cs[1]), cs[2]), cs[3])
  {
    var s1 := Step(s, cs[0]);
    var s2 := Step(s1, cs[1]);
    var s3 := Step(s2, cs[2]);
    var s4 := Step(s3, cs[3]);
    assert cs[1..][0] == cs[1] && cs[1..][1..] == cs[2..];
    assert cs[2..][0] == cs[2] && cs[2..][1..] == cs[3..];
    assert cs[3..][0] == cs[3] && cs[3..][1..] == [];
    calc {
      Run(s, cs);
      Run(s1, cs[1..]);
      Run(s2, cs[2..]);
      Run(s3, cs[3..]);
      Run(s4, []);
    }
  }
}
