/** Values shared by the FastForward dispatch model: identifiers and their
    type tags, property-list classes, registered objects, the calls the
    dispatch layer makes into a VOL plugin, errors, and the library state. */
module H5Types {

  /** hid_t: a signed identifier. Failure is reported as a negative value. */
  type Hid = int

  /** H5P_DEFAULT, the "use the default list" sentinel. */
  const H5P_DEFAULT: Hid := 0

  /** FAIL, the negative return value of every entry point on failure. */
  const FAIL: int := -1

  /** The largest identifier the registry hands out (hid_t is a signed 32-bit int). */
  const MAX_ID: Hid := 0x7fff_ffff

  /** uint64_t, the type of the transaction number. */
  type Uint64 = x: int | 0 <= x < 0x1_0000_0000_0000_0000

  datatype Option<T> = None | Some(value: T)

  datatype Result<T> = Ok(value: T) | Err(error: Error)

  /** The failure points of the entry points, one per distinct HGOTO_ERROR cause. */
  datatype Error =
    | BadName                      // "invalid file name" / "no name"
    | BadFlags                     // "invalid flags" / "invalid file open flags"
    | ExclusiveFlags               // "mutually exclusive flags for file creation"
    | NotPList(cls: PClass)        // "not ... property list"
    | PListMissing                 // "can't find object for ID"
    | CantSetProperty(name: PropName)
    | BadLocation                  // "invalid file identifier" / "invalid dataset identifier"
    | NoVolInfo                    // "ID does not contain VOL information"
    | BackendFailed                // the plugin returned NULL or a negative status
    | CantRegister                 // "unable to atomize ... handle"
    | NotDataset                   // H5Dwrite_ff: dset_id is 0
    | NotDataspace                 // H5Dread_ff: a negative dataspace id

  /** The C return value of an entry point: the identifier or status, or FAIL. */
  function ApiReturn(r: Result<int>): int {
    match r
    case Ok(v) => v
    case Err(_) => FAIL
  }

  /** H5I_type_t, restricted to the kinds the dispatch layer meets.
      BadId is what H5I_get_type answers for an unregistered identifier. */
  datatype IdType = BadId | FileId | GroupId | DatatypeId | DataspaceId | DatasetId | AttrId | GenPropList

  /** Property-list classes, with the derivation HDF5 gives them. */
  datatype PClass =
    | ObjectCreate | GroupCreate | FileCreate | DatasetCreate
    | StringCreate | LinkCreate
    | LinkAccess | GroupAccess | DatasetAccess
    | FileAccess | DatasetXfer

  function Parent(c: PClass): Option<PClass> {
    match c
    case GroupCreate => Some(ObjectCreate)
    case FileCreate => Some(GroupCreate)
    case DatasetCreate => Some(ObjectCreate)
    case LinkCreate => Some(StringCreate)
    case GroupAccess => Some(LinkAccess)
    case DatasetAccess => Some(LinkAccess)
    case _ => None
  }

  /** Distance from a root class; strictly decreases along Parent. */
  function Depth(c: PClass): nat {
    match c
    case FileCreate => 2
    case GroupCreate | DatasetCreate | LinkCreate | GroupAccess | DatasetAccess => 1
    case _ => 0
  }

  /** H5P_class_isa: `c` is `target` or derives from it. */
  predicate IsA(c: PClass, target: PClass)
    decreases Depth(c)
  {
    c == target || (Parent(c).Some? && IsA(Parent(c).value, target))
  }

  /** Names of the properties the dispatch layer stores into creation lists. */
  datatype PropName = GroupLcplId | DsetTypeId | DsetSpaceId | DsetLcplId

  /** The opaque object pointer a VOL plugin hands back. */
  datatype Token = Token(n: nat)

  /** H5VL_t: the plugin kept as auxiliary data on an identifier. */
  datatype Plugin = Plugin(n: nat)

  /** A caller's memory buffer, by address; its bytes are not modelled. */
  datatype Buffer = Buffer(addr: nat)

  /** What an identifier stands for: a plugin object, or a property list. */
  datatype Obj =
    | Backend(token: Token)
    | PList(cls: PClass, props: map<PropName, Hid>)

  /** One row of the identifier table: type tag, object, auxiliary plugin. */
  datatype Entry = Entry(tag: IdType, obj: Obj, aux: Option<Plugin>)

  /** H5VL_loc_params_t; the dispatch layer only addresses objects by self. */
  datatype LocParams = BySelf(objType: IdType)

  /** The calls into a VOL plugin, with the arguments the dispatch layer passes. */
  datatype VolCall =
    | FileCreateCall(name: string, flags: bv32, fcpl: Hid, fapl: Hid, dxpl: Hid, eq: Hid)
    | FileOpenCall(name: string, flags: bv32, fapl: Hid, dxpl: Hid, eq: Hid)
    | GroupCreateCall(obj: Obj, loc: LocParams, plugin: Plugin, name: string, gcpl: Hid, gapl: Hid, dxpl: Hid, eq: Hid)
    | GroupOpenCall(obj: Obj, loc: LocParams, plugin: Plugin, name: string, gapl: Hid, dxpl: Hid, eq: Hid)
    | GroupCloseCall(closed: Token, plugin: Plugin, dxpl: Hid, eq: Hid)
    | DatasetCreateCall(obj: Obj, loc: LocParams, plugin: Plugin, name: string, dcpl: Hid, dapl: Hid, dxpl: Hid, eq: Hid)
    | DatasetOpenCall(obj: Obj, loc: LocParams, plugin: Plugin, name: string, dapl: Hid, dxpl: Hid, eq: Hid)
    | DatasetCloseCall(closed: Token, plugin: Plugin, dxpl: Hid, eq: Hid)
    | DatasetWriteCall(dset: Obj, plugin: Plugin, memType: Hid, memSpace: Hid, fileSpace: Hid, dxpl: Hid, buf: Buffer, eq: Hid)
    | DatasetReadCall(dset: Obj, plugin: Plugin, memType: Hid, memSpace: Hid, fileSpace: Hid, dxpl: Hid, buf: Buffer, eq: Hid)

  /** What H5VL_file_create / H5VL_file_open hand back on success:
      the file object and, through their out-parameter, the plugin. */
  datatype Made = Made(token: Token, plugin: Plugin)

  /** The process-wide default lists, H5P_<CLASS>_DEFAULT. */
  datatype Defaults = Defaults(
    fileCreate: Hid, fileAccess: Hid, linkCreate: Hid, groupCreate: Hid,
    groupAccess: Hid, datasetCreate: Hid, datasetAccess: Hid, datasetXfer: Hid)

  /** The library state the entry points read and change: the identifier
      table, the next identifier to hand out, the default lists, the
      metadata-cache transfer list H5AC_dxpl_id, and every plugin call made. */
  datatype State = State(ids: map<Hid, Entry>, nextId: Hid, defaults: Defaults, acDxpl: Hid, log: seq<VolCall>)

  /** The state after a call and what the call returned. */
  datatype Transition<T> = Transition(post: State, ret: Result<T>)

  /** `id` is registered as a property list of exactly class `cls`. */
  predicate IsListOf(ids: map<Hid, Entry>, id: Hid, cls: PClass) {
    id in ids && ids[id].tag == GenPropList && ids[id].obj.PList? && ids[id].obj.cls == cls
  }

  /** Every default list is registered with its class. */
  predicate DefaultsRegistered(ids: map<Hid, Entry>, d: Defaults) {
    && IsListOf(ids, d.fileCreate, FileCreate)
    && IsListOf(ids, d.fileAccess, FileAccess)
    && IsListOf(ids, d.linkCreate, LinkCreate)
    && IsListOf(ids, d.groupCreate, GroupCreate)
    && IsListOf(ids, d.groupAccess, GroupAccess)
    && IsListOf(ids, d.datasetCreate, DatasetCreate)
    && IsListOf(ids, d.datasetAccess, DatasetAccess)
    && IsListOf(ids, d.datasetXfer, DatasetXfer)
  }

  /** The library invariant: identifiers are positive and below nextId (so
      never H5P_DEFAULT and never reused), a tag says whether the entry is a
      property list, and every default list is registered with its class. */
  ghost predicate WellFormed(s: State) {
    && 0 < s.nextId <= MAX_ID + 1
    && (forall id :: id in s.ids ==>
          && 0 < id < s.nextId
          && s.ids[id].tag != BadId
          && (s.ids[id].tag == GenPropList <==> s.ids[id].obj.PList?))
    && DefaultsRegistered(s.ids, s.defaults)
  }

  /** `e2` is what `e1` may become: the same tag and plugin, the same plugin
      object, or a property list of the same class. */
  predicate Evolves(e1: Entry, e2: Entry) {
    && e2.tag == e1.tag && e2.aux == e1.aux
    && (e1.obj.Backend? ==> e2.obj == e1.obj)
    && (e1.obj.PList? ==> e2.obj.PList? && e2.obj.cls == e1.obj.cls)
  }

  /** `s2` is `s1` after further calls: no identifier disappears, none
      changes its tag, its plugin or (for plugin objects) its object, a
      property list keeps its class, new identifiers lie at or above the old
      nextId, and the call log only grows. */
  ghost predicate Extends(s1: State, s2: State) {
    && s1.defaults == s2.defaults
    && s1.acDxpl == s2.acDxpl
    && s1.nextId <= s2.nextId
    && s1.log <= s2.log
    && (forall id :: id in s1.ids ==> id in s2.ids && Evolves(s1.ids[id], s2.ids[id]))
    && (forall id :: id in s2.ids && id !in s1.ids ==> s1.nextId <= id)
  }
}
