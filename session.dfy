/** The library over a session of calls: each entry point keeps the library
    invariant, and over any sequence of calls no identifier disappears,
    changes its type tag or its plugin, or is handed out twice, and every
    plugin in the table was either there before or reported by a file
    create/open. */
module H5FFSession {
  import opened H5Types
  import opened H5Registry
  import opened H5FF

  // ---------------------------------------------------------------------
  // Each entry point keeps the library invariant.

  lemma FcreateKeepsWellFormed(s: State, filename: Option<string>, flags: bv32, fcpl: Hid, fapl: Hid, eq: Hid, reply: Option<Made>)
    requires WellFormed(s)
    ensures var post := Fcreate(s, filename, flags, fcpl, fapl, eq, reply).post;
      WellFormed(post) && Extends(s, post)
  {
    if FcreateArgsOk(s.ids, filename, flags, fcpl, fapl) {
      var call := FileCreateCall(filename.value, flags, Resolve(fcpl, s.defaults.fileCreate), Resolve(fapl, s.defaults.fileAccess), s.acDxpl, eq);
      FileRegisterKeepsWellFormed(s, call, reply);
    } else {
      ExtendsReflexive(s);
    }
  }

  lemma FopenKeepsWellFormed(s: State, filename: Option<string>, flags: bv32, fapl: Hid, eq: Hid, reply: Option<Made>)
    requires WellFormed(s)
    ensures var post := Fopen(s, filename, flags, fapl, eq, reply).post;
      WellFormed(post) && Extends(s, post)
  {
    if FopenArgsOk(s.ids, filename, flags, fapl) {
      var call := FileOpenCall(filename.value, flags, Resolve(fapl, s.defaults.fileAccess), s.acDxpl, eq);
      FileRegisterKeepsWellFormed(s, call, reply);
    } else {
      ExtendsReflexive(s);
    }
  }

  /** The tail of H5Fcreate_ff and H5Fopen_ff: log the call, then register
      the file the plugin made, if any. */
  lemma FileRegisterKeepsWellFormed(s: State, call: VolCall, reply: Option<Made>)
    requires WellFormed(s)
    ensures var s1 := s.(log := s.log + [call]);
      && WellFormed(s1) && Extends(s, s1)
      && (reply.Some? ==>
            var post := Register(s1, FileId, Backend(reply.value.token), Some(reply.value.plugin)).post;
            WellFormed(post) && Extends(s, post))
  {
    var s1 := s.(log := s.log + [call]);
    LogOnlyKeepsWellFormed(s, [call]);
    if reply.Some? {
      RegisterKeepsWellFormed(s1, FileId, Backend(reply.value.token), Some(reply.value.plugin));
      ExtendsTransitive(s, s1, Register(s1, FileId, Backend(reply.value.token), Some(reply.value.plugin)).post);
    }
  }

  /** Appending plugin calls to the log keeps the invariant. */
  lemma LogOnlyKeepsWellFormed(s: State, calls: seq<VolCall>)
    requires WellFormed(s)
    ensures WellFormed(s.(log := s.log + calls)) && Extends(s, s.(log := s.log + calls))
  {
  }

  /** The shared tail only appends to the log and registers a GROUP or
      DATASET identifier. */
  lemma CallUnderKeepsWellFormed(s: State, loc: Hid, u: Under, name: string, eq: Hid, reply: Option<Token>)
    requires WellFormed(s)
    ensures var post := CallUnder(s, loc, u, name, eq, reply).post;
      WellFormed(post) && Extends(s, post)
  {
    var post := CallUnder(s, loc, u, name, eq, reply).post;
    if !Located(s.ids, loc) {
      ExtendsReflexive(s);
    } else {
      var call := CallFor(u, s.ids[loc].obj, BySelf(s.ids[loc].tag), s.ids[loc].aux.value, name, s.acDxpl, eq);
      var s1 := s.(log := s.log + [call]);
      LogOnlyKeepsWellFormed(s, [call]);
      if reply.None? {
        assert post == s1;
      } else if s.nextId > MAX_ID {
        if HasRollback(u) {
          var close := CloseFor(u, reply.value, s.ids[loc].aux.value, s.acDxpl, eq);
          assert post == s1.(log := s1.log + [close]);
          LogOnlyKeepsWellFormed(s1, [close]);
        } else {
          assert post == s1;
        }
        ExtendsTransitive(s, s1, post);
      } else {
        var reg := Register(s1, TagFor(u), Backend(reply.value), s.ids[loc].aux);
        assert post == reg.post;
        RegisterKeepsWellFormed(s1, TagFor(u), Backend(reply.value), s.ids[loc].aux);
        ExtendsTransitive(s, s1, post);
      }
    }
  }

  lemma GcreateKeepsWellFormed(s: State, loc: Hid, name: Option<string>, lcpl: Hid, gcpl: Hid, gapl: Hid, trans: Uint64, eq: Hid, reply: Option<Token>)
    requires WellFormed(s)
    ensures var post := Gcreate(s, loc, name, lcpl, gcpl, gapl, trans, eq, reply).post;
      WellFormed(post) && Extends(s, post)
  {
    var g := Resolve(gcpl, s.defaults.groupCreate);
    if GcreateArgsOk(s.ids, name, lcpl, gcpl, gapl) && CanSet(s.ids, g, GroupLcplId) {
      var l := Resolve(lcpl, s.defaults.linkCreate);
      var s1 := s.(ids := SetProp(s.ids, g, GroupLcplId, l).value);
      SetPropKeepsWellFormed(s, g, GroupLcplId, l);
      CallUnderKeepsWellFormed(s1, loc, GroupCreating(g, Resolve(gapl, s.defaults.groupAccess)), name.value, eq, reply);
      ExtendsTransitive(s, s1, Gcreate(s, loc, name, lcpl, gcpl, gapl, trans, eq, reply).post);
    }
  }

  lemma GopenKeepsWellFormed(s: State, loc: Hid, name: Option<string>, gapl: Hid, trans: Uint64, eq: Hid, reply: Option<Token>)
    requires WellFormed(s)
    ensures var post := Gopen(s, loc, name, gapl, trans, eq, reply).post;
      WellFormed(post) && Extends(s, post)
  {
    if GopenArgsOk(s.ids, name, gapl) {
      CallUnderKeepsWellFormed(s, loc, GroupOpening(Resolve(gapl, s.defaults.groupAccess)), name.value, eq, reply);
    } else {
      ExtendsReflexive(s);
    }
  }

  /** The stores into a dataset-creation list keep the invariant. */
  lemma StoreDcplKeepsWellFormed(s: State, d: Hid, typeId: Hid, spaceId: Hid, lcpl: Hid)
    requires WellFormed(s)
    ensures var post := s.(ids := StoreDcpl(s.ids, d, typeId, spaceId, lcpl).ids);
      WellFormed(post) && Extends(s, post)
  {
    var post := s.(ids := StoreDcpl(s.ids, d, typeId, spaceId, lcpl).ids);
    if !CanSet(s.ids, d, DsetTypeId) {
      ExtendsReflexive(s);
    } else {
      var s1 := s.(ids := SetProp(s.ids, d, DsetTypeId, typeId).value);
      SetPropKeepsWellFormed(s, d, DsetTypeId, typeId);
      if !CanSet(s1.ids, d, DsetSpaceId) {
        assert post == s1;
      } else {
        var s2 := s1.(ids := SetProp(s1.ids, d, DsetSpaceId, spaceId).value);
        SetPropKeepsWellFormed(s1, d, DsetSpaceId, spaceId);
        ExtendsTransitive(s, s1, s2);
        if !CanSet(s2.ids, d, DsetLcplId) {
          assert post == s2;
        } else {
          SetPropKeepsWellFormed(s2, d, DsetLcplId, lcpl);
          assert post == s2.(ids := SetProp(s2.ids, d, DsetLcplId, lcpl).value);
          ExtendsTransitive(s, s2, post);
        }
      }
    }
  }

  lemma DcreateKeepsWellFormed(s: State, loc: Hid, name: Option<string>, typeId: Hid, spaceId: Hid, lcpl: Hid, dcpl: Hid, dapl: Hid,
                               trans: Uint64, eq: Hid, reply: Option<Token>)
    requires WellFormed(s)
    ensures var post := Dcreate(s, loc, name, typeId, spaceId, lcpl, dcpl, dapl, trans, eq, reply).post;
      WellFormed(post) && Extends(s, post)
  {
    var post := Dcreate(s, loc, name, typeId, spaceId, lcpl, dcpl, dapl, trans, eq, reply).post;
    if DcreateArgsOk(s.ids, name, lcpl, dcpl, dapl) {
      var d := Resolve(dcpl, s.defaults.datasetCreate);
      var l := Resolve(lcpl, s.defaults.linkCreate);
      var stored := StoreDcpl(s.ids, d, typeId, spaceId, l);
      var s3 := s.(ids := stored.ids);
      StoreDcplKeepsWellFormed(s, d, typeId, spaceId, l);
      assert ResolveList(s.ids, lcpl, LinkCreate, s.defaults.linkCreate) == Ok(l);
      assert ResolveList(s.ids, dcpl, DatasetCreate, s.defaults.datasetCreate) == Ok(d);
      assert ResolveList(s.ids, dapl, DatasetAccess, s.defaults.datasetAccess) == Ok(Resolve(dapl, s.defaults.datasetAccess));
      if stored.err.None? {
        var u := DatasetCreating(d, Resolve(dapl, s.defaults.datasetAccess));
        assert Dcreate(s, loc, name, typeId, spaceId, lcpl, dcpl, dapl, trans, eq, reply) == CallUnder(s3, loc, u, name.value, eq, reply);
        CallUnderKeepsWellFormed(s3, loc, u, name.value, eq, reply);
        ExtendsTransitive(s, s3, post);
      } else {
        assert post == s3;
      }
    } else {
      assert post == s;
      ExtendsReflexive(s);
    }
  }

  lemma DopenKeepsWellFormed(s: State, loc: Hid, name: Option<string>, dapl: Hid, trans: Uint64, eq: Hid, reply: Option<Token>)
    requires WellFormed(s)
    ensures var post := Dopen(s, loc, name, dapl, trans, eq, reply).post;
      WellFormed(post) && Extends(s, post)
  {
    if DopenArgsOk(s.ids, name, dapl) {
      CallUnderKeepsWellFormed(s, loc, DatasetOpening(Resolve(dapl, s.defaults.datasetAccess)), name.value, eq, reply);
    } else {
      ExtendsReflexive(s);
    }
  }

  lemma DwriteKeepsWellFormed(s: State, dset: Hid, memType: Hid, memSpace: Hid, fileSpace: Hid, dxpl: Hid, buf: Buffer,
                       trans: Uint64, eq: Hid, status: int)
    requires WellFormed(s)
    ensures var post := Dwrite(s, dset, memType, memSpace, fileSpace, dxpl, buf, trans, eq, status).post;
      WellFormed(post) && Extends(s, post)
  {
    var post := Dwrite(s, dset, memType, memSpace, fileSpace, dxpl, buf, trans, eq, status).post;
    if post == s {
      ExtendsReflexive(s);
    } else {
      LogOnlyKeepsWellFormed(s, post.log[|s.log|..]);
      assert post == s.(log := s.log + post.log[|s.log|..]);
    }
  }

  lemma DreadKeepsWellFormed(s: State, dset: Hid, memType: Hid, memSpace: Hid, fileSpace: Hid, dxpl: Hid, buf: Buffer,
                       trans: Uint64, eq: Hid, status: int)
    requires WellFormed(s)
    ensures var post := Dread(s, dset, memType, memSpace, fileSpace, dxpl, buf, trans, eq, status).post;
      WellFormed(post) && Extends(s, post)
  {
    var post := Dread(s, dset, memType, memSpace, fileSpace, dxpl, buf, trans, eq, status).post;
    if post == s {
      ExtendsReflexive(s);
    } else {
      LogOnlyKeepsWellFormed(s, post.log[|s.log|..]);
      assert post == s.(log := s.log + post.log[|s.log|..]);
    }
  }

  lemma ExtendsReflexive(s: State)
    ensures Extends(s, s)
  {
  }

  lemma ExtendsTransitive(s1: State, s2: State, s3: State)
    requires Extends(s1, s2) && Extends(s2, s3)
    ensures Extends(s1, s3)
  {
  }

  // ---------------------------------------------------------------------
  // Sessions.

  /** One call of an entry point, with the plugin's reply to it. */
  datatype ApiCall =
    | FcreateOp(filename: Option<string>, flags: bv32, fcpl: Hid, fapl: Hid, eq: Hid, fileReply: Option<Made>)
    | FopenOp(filename: Option<string>, flags: bv32, fapl: Hid, eq: Hid, fileReply: Option<Made>)
    | GcreateOp(loc: Hid, name: Option<string>, lcpl: Hid, gcpl: Hid, gapl: Hid, trans: Uint64, eq: Hid, reply: Option<Token>)
    | GopenOp(loc: Hid, name: Option<string>, gapl: Hid, trans: Uint64, eq: Hid, reply: Option<Token>)
    | DcreateOp(loc: Hid, name: Option<string>, typeId: Hid, spaceId: Hid, lcpl: Hid, dcpl: Hid, dapl: Hid,
                trans: Uint64, eq: Hid, reply: Option<Token>)
    | DopenOp(loc: Hid, name: Option<string>, dapl: Hid, trans: Uint64, eq: Hid, reply: Option<Token>)
    | DwriteOp(dset: Hid, memType: Hid, memSpace: Hid, fileSpace: Hid, dxpl: Hid, buf: Buffer, trans: Uint64, eq: Hid, status: int)
    | DreadOp(dset: Hid, memType: Hid, memSpace: Hid, fileSpace: Hid, dxpl: Hid, buf: Buffer, trans: Uint64, eq: Hid, status: int)

  /** One call: the state after it and what it returned. */
  function Apply(s: State, c: ApiCall): Transition<int> {
    match c
    case FcreateOp(filename, flags, fcpl, fapl, eq, reply) => Fcreate(s, filename, flags, fcpl, fapl, eq, reply)
    case FopenOp(filename, flags, fapl, eq, reply) => Fopen(s, filename, flags, fapl, eq, reply)
    case GcreateOp(loc, name, lcpl, gcpl, gapl, trans, eq, reply) => Gcreate(s, loc, name, lcpl, gcpl, gapl, trans, eq, reply)
    case GopenOp(loc, name, gapl, trans, eq, reply) => Gopen(s, loc, name, gapl, trans, eq, reply)
    case DcreateOp(loc, name, typeId, spaceId, lcpl, dcpl, dapl, trans, eq, reply) =>
      Dcreate(s, loc, name, typeId, spaceId, lcpl, dcpl, dapl, trans, eq, reply)
    case DopenOp(loc, name, dapl, trans, eq, reply) => Dopen(s, loc, name, dapl, trans, eq, reply)
    case DwriteOp(dset, memType, memSpace, fileSpace, dxpl, buf, trans, eq, status) =>
      Dwrite(s, dset, memType, memSpace, fileSpace, dxpl, buf, trans, eq, status)
    case DreadOp(dset, memType, memSpace, fileSpace, dxpl, buf, trans, eq, status) =>
      Dread(s, dset, memType, memSpace, fileSpace, dxpl, buf, trans, eq, status)
  }

  /** The state after one call. */
  function Step(s: State, c: ApiCall): State {
    Apply(s, c).post
  }

  /** The state after a sequence of calls, made one after the other. */
  function Run(s: State, cs: seq<ApiCall>): State
    decreases |cs|
  {
    if cs == [] then s else Run(Step(s, cs[0]), cs[1..])
  }

  lemma StepKeepsWellFormed(s: State, c: ApiCall)
    requires WellFormed(s)
    ensures WellFormed(Step(s, c)) && Extends(s, Step(s, c))
  {
    match c
    case FcreateOp(filename, flags, fcpl, fapl, eq, reply) =>
      FcreateKeepsWellFormed(s, filename, flags, fcpl, fapl, eq, reply);
    case FopenOp(filename, flags, fapl, eq, reply) =>
      FopenKeepsWellFormed(s, filename, flags, fapl, eq, reply);
    case GcreateOp(loc, name, lcpl, gcpl, gapl, trans, eq, reply) =>
      GcreateKeepsWellFormed(s, loc, name, lcpl, gcpl, gapl, trans, eq, reply);
    case GopenOp(loc, name, gapl, trans, eq, reply) =>
      GopenKeepsWellFormed(s, loc, name, gapl, trans, eq, reply);
    case DcreateOp(loc, name, typeId, spaceId, lcpl, dcpl, dapl, trans, eq, reply) =>
      DcreateKeepsWellFormed(s, loc, name, typeId, spaceId, lcpl, dcpl, dapl, trans, eq, reply);
    case DopenOp(loc, name, dapl, trans, eq, reply) =>
      DopenKeepsWellFormed(s, loc, name, dapl, trans, eq, reply);
    case DwriteOp(dset, memType, memSpace, fileSpace, dxpl, buf, trans, eq, status) =>
      DwriteKeepsWellFormed(s, dset, memType, memSpace, fileSpace, dxpl, buf, trans, eq, status);
    case DreadOp(dset, memType, memSpace, fileSpace, dxpl, buf, trans, eq, status) =>
      DreadKeepsWellFormed(s, dset, memType, memSpace, fileSpace, dxpl, buf, trans, eq, status);
  }

  /** Over any session the invariant holds throughout, and the table only
      grows: an identifier keeps its type tag and its plugin for as long as
      the session runs, and no identifier value is handed out twice. */
  lemma {:induction false} RunKeepsWellFormed(s: State, cs: seq<ApiCall>)
    requires WellFormed(s)
    ensures WellFormed(Run(s, cs)) && Extends(s, Run(s, cs))
    decreases |cs|
  {
    if cs == [] {
      ExtendsReflexive(s);
    } else {
      StepKeepsWellFormed(s, cs[0]);
      RunKeepsWellFormed(Step(s, cs[0]), cs[1..]);
      ExtendsTransitive(s, Step(s, cs[0]), Run(s, cs));
    }
  }

  // ---------------------------------------------------------------------
  // Where plugins come from.

  /** The plugins attached to identifiers in a table. */
  function PluginsOf(ids: map<Hid, Entry>): set<Plugin> {
    set id | id in ids && ids[id].aux.Some? :: ids[id].aux.value
  }

  /** The plugin a call's reply reports: only file create and open replies carry one. */
  function ReportedBy(c: ApiCall): set<Plugin> {
    if (c.FcreateOp? || c.FopenOp?) && c.fileReply.Some? then {c.fileReply.value.plugin} else {}
  }

  /** The plugins the replies of a session report. */
  function Reported(cs: seq<ApiCall>): set<Plugin>
    decreases |cs|
  {
    if cs == [] then {} else ReportedBy(cs[0]) + Reported(cs[1..])
  }

  /** A table that differs from `ids` at most by identifiers whose plugin is
      already in `ids` or in `extra` holds no other plugin. */
  lemma PluginsBound(ids: map<Hid, Entry>, post: map<Hid, Entry>, extra: set<Plugin>)
    requires forall id :: id in post && post[id].aux.Some? ==>
      (id in ids && post[id].aux == ids[id].aux) || post[id].aux.value in PluginsOf(ids) + extra
    ensures PluginsOf(post) <= PluginsOf(ids) + extra
  {
    forall p | p in PluginsOf(post)
      ensures p in PluginsOf(ids) + extra
    {
      var k :| k in post && post[k].aux.Some? && post[k].aux.value == p;
      if k in ids && post[k].aux == ids[k].aux {
        assert ids[k].aux.value == p;
      }
    }
  }

  /** A new file identifier carries the plugin the reply reports. */
  lemma FilePluginsBound(s: State, t: Transition<Hid>, made: Option<Made>)
    requires t.ret.Ok? ==> made.Some? && t.post.ids == s.ids[t.ret.value := Entry(FileId, Backend(made.value.token), Some(made.value.plugin))]
    requires t.ret.Err? ==> t.post.ids == s.ids
    ensures PluginsOf(t.post.ids) <= PluginsOf(s.ids) + (if made.Some? then {made.value.plugin} else {})
  {
    PluginsBound(s.ids, t.post.ids, if made.Some? then {made.value.plugin} else {});
  }

  /** A new group or dataset identifier carries the plugin of the identifier
      it was made under, which is already in the table. */
  lemma InheritedPluginsBound(s: State, post: State, loc: Hid)
    requires loc in s.ids
    requires forall id :: id in s.ids ==> id in post.ids && post.ids[id].aux == s.ids[id].aux
    requires forall id :: id in post.ids && id !in s.ids ==> post.ids[id].aux == s.ids[loc].aux
    ensures PluginsOf(post.ids) <= PluginsOf(s.ids)
  {
    forall id | id in post.ids && post.ids[id].aux.Some?
      ensures (id in s.ids && post.ids[id].aux == s.ids[id].aux) || post.ids[id].aux.value in PluginsOf(s.ids)
    {
      if id !in s.ids {
        assert s.ids[loc].aux.value in PluginsOf(s.ids);
      }
    }
    PluginsBound(s.ids, post.ids, {});
  }

  /** Registering one entry that carries the plugin of an identifier already
      in the table adds no plugin. */
  lemma RegisteredUnderPluginsBound(ids: map<Hid, Entry>, loc: Hid, id: Hid, e: Entry)
    requires loc in ids && e.aux == ids[loc].aux
    ensures PluginsOf(ids[id := e]) <= PluginsOf(ids)
  {
    forall k | k in ids[id := e] && ids[id := e][k].aux.Some?
      ensures (k in ids && ids[id := e][k].aux == ids[k].aux) || ids[id := e][k].aux.value in PluginsOf(ids)
    {
      if k == id {
        assert ids[loc].aux.value in PluginsOf(ids);
      }
    }
    PluginsBound(ids, ids[id := e], {});
  }

  /** The identifiers a group or dataset entry point adds: at most the one at
      nextId, and only on success. */
  lemma NewIdOnlyOnSuccess(s: State, t: Transition<Hid>, loc: Hid, tag: IdType, made: Option<Token>)
    requires t.ret.Err? ==> t.post.ids.Keys == s.ids.Keys
    requires t.ret.Ok? ==>
      t.ret.value == s.nextId && t.ret.value in t.post.ids && made.Some? && loc in s.ids && t.post.ids[t.ret.value] == Entry(tag, Backend(made.value), s.ids[loc].aux)
    requires t.ret.Ok? ==> t.post.ids.Keys <= s.ids.Keys + {s.nextId}
    requires s.nextId !in s.ids
    ensures forall id :: id in t.post.ids && id !in s.ids ==> t.ret.Ok? && loc in s.ids && t.post.ids[id].aux == s.ids[loc].aux
  {
  }

  /** One call adds at most the plugin its reply reports: group and dataset
      identifiers take the plugin of an identifier already present. */
  lemma StepPlugins(s: State, c: ApiCall)
    requires WellFormed(s)
    ensures PluginsOf(Step(s, c).ids) <= PluginsOf(s.ids) + ReportedBy(c)
  {
    match c
    case FcreateOp(filename, flags, fcpl, fapl, eq, reply) =>
      FilePluginsBound(s, Fcreate(s, filename, flags, fcpl, fapl, eq, reply), reply);
    case FopenOp(filename, flags, fapl, eq, reply) =>
      FilePluginsBound(s, Fopen(s, filename, flags, fapl, eq, reply), reply);
    case GcreateOp(loc, name, lcpl, gcpl, gapl, trans, eq, reply) =>
      GcreatePlugins(s, loc, name, lcpl, gcpl, gapl, trans, eq, reply);
    case GopenOp(loc, name, gapl, trans, eq, reply) =>
      GopenPlugins(s, loc, name, gapl, trans, eq, reply);
    case DcreateOp(loc, name, typeId, spaceId, lcpl, dcpl, dapl, trans, eq, reply) =>
      DcreatePlugins(s, loc, name, typeId, spaceId, lcpl, dcpl, dapl, trans, eq, reply);
    case DopenOp(loc, name, dapl, trans, eq, reply) =>
      DopenPlugins(s, loc, name, dapl, trans, eq, reply);
    case DwriteOp(_, _, _, _, _, _, _, _, _) =>
    case DreadOp(_, _, _, _, _, _, _, _, _) =>
  }

  lemma GopenPlugins(s: State, loc: Hid, name: Option<string>, gapl: Hid, trans: Uint64, eq: Hid, reply: Option<Token>)
    requires WellFormed(s)
    ensures PluginsOf(Gopen(s, loc, name, gapl, trans, eq, reply).post.ids) <= PluginsOf(s.ids)
  {
    var t := Gopen(s, loc, name, gapl, trans, eq, reply);
    if t.ret.Ok? { RegisteredUnderPluginsBound(s.ids, loc, t.ret.value, Entry(GroupId, Backend(reply.value), s.ids[loc].aux)); }
  }

  lemma DopenPlugins(s: State, loc: Hid, name: Option<string>, dapl: Hid, trans: Uint64, eq: Hid, reply: Option<Token>)
    requires WellFormed(s)
    ensures PluginsOf(Dopen(s, loc, name, dapl, trans, eq, reply).post.ids) <= PluginsOf(s.ids)
  {
    var t := Dopen(s, loc, name, dapl, trans, eq, reply);
    if t.ret.Ok? { RegisteredUnderPluginsBound(s.ids, loc, t.ret.value, Entry(DatasetId, Backend(reply.value), s.ids[loc].aux)); }
  }

  lemma GcreatePlugins(s: State, loc: Hid, name: Option<string>, lcpl: Hid, gcpl: Hid, gapl: Hid, trans: Uint64, eq: Hid, reply: Option<Token>)
    requires WellFormed(s)
    ensures PluginsOf(Gcreate(s, loc, name, lcpl, gcpl, gapl, trans, eq, reply).post.ids) <= PluginsOf(s.ids)
  {
    var t := Gcreate(s, loc, name, lcpl, gcpl, gapl, trans, eq, reply);
    GcreateKeepsWellFormed(s, loc, name, lcpl, gcpl, gapl, trans, eq, reply);
    NewIdOnlyOnSuccess(s, t, loc, GroupId, reply);
    if t.ret.Ok? { InheritedPluginsBound(s, t.post, loc); }
    else { PluginsBound(s.ids, t.post.ids, {}); }
  }

  lemma DcreatePlugins(s: State, loc: Hid, name: Option<string>, typeId: Hid, spaceId: Hid, lcpl: Hid, dcpl: Hid, dapl: Hid,
                       trans: Uint64, eq: Hid, reply: Option<Token>)
    requires WellFormed(s)
    ensures PluginsOf(Dcreate(s, loc, name, typeId, spaceId, lcpl, dcpl, dapl, trans, eq, reply).post.ids) <= PluginsOf(s.ids)
  {
    var t := Dcreate(s, loc, name, typeId, spaceId, lcpl, dcpl, dapl, trans, eq, reply);
    DcreateKeepsWellFormed(s, loc, name, typeId, spaceId, lcpl, dcpl, dapl, trans, eq, reply);
    NewIdOnlyOnSuccess(s, t, loc, DatasetId, reply);
    if t.ret.Ok? { InheritedPluginsBound(s, t.post, loc); }
    else { PluginsBound(s.ids, t.post.ids, {}); }
  }

  /** Over a whole session, every plugin in the table was already there or
      was reported by one of the session's file create/open replies: group
      and dataset identifiers never bring a plugin of their own. */
  lemma {:induction false} RunPlugins(s: State, cs: seq<ApiCall>)
    requires WellFormed(s)
    ensures PluginsOf(Run(s, cs).ids) <= PluginsOf(s.ids) + Reported(cs)
    decreases |cs|
  {
    if cs != [] {
      StepPlugins(s, cs[0]);
      StepKeepsWellFormed(s, cs[0]);
      RunPlugins(Step(s, cs[0]), cs[1..]);
    }
  }
}
