/** The identifier-table and property-list operations the entry points are
    built from: H5I_object, H5I_get_aux, H5I_get_type, H5I_register2,
    H5P_isa_class, H5P_set, and default-list substitution. */
module H5Registry {
  import opened H5Types

  /** H5I_object: the object behind `id`, or NULL. */
  function ObjectOf(ids: map<Hid, Entry>, id: Hid): Option<Obj> {
    if id in ids then Some(ids[id].obj) else None
  }

  /** H5I_get_aux: the plugin attached to `id`, or NULL. */
  function AuxOf(ids: map<Hid, Entry>, id: Hid): Option<Plugin> {
    if id in ids then ids[id].aux else None
  }

  /** H5I_get_type: the tag of `id`, or H5I_BADID. */
  function TypeOf(ids: map<Hid, Entry>, id: Hid): IdType {
    if id in ids then ids[id].tag else BadId
  }

  /** H5P_isa_class(id, cls) == TRUE: `id` is a property list whose class is
      `cls` or derives from it. */
  predicate ListIsA(ids: map<Hid, Entry>, id: Hid, cls: PClass) {
    id in ids && ids[id].tag == GenPropList && ids[id].obj.PList? && IsA(ids[id].obj.cls, cls)
  }

  /** A property-list argument passes its check: it is the sentinel, or a
      list of the required class. */
  predicate Accepts(ids: map<Hid, Entry>, id: Hid, cls: PClass) {
    id == H5P_DEFAULT || ListIsA(ids, id, cls)
  }

  /** The list an argument stands for once the sentinel is replaced. */
  function Resolve(id: Hid, dflt: Hid): Hid {
    if id == H5P_DEFAULT then dflt else id
  }

  /** Default-list substitution as every entry point performs it: the
      sentinel becomes the class's default list, a list of the class is kept,
      anything else fails with the class that was required. */
  function ResolveList(ids: map<Hid, Entry>, id: Hid, cls: PClass, dflt: Hid): (r: Result<Hid>)
    ensures r.Ok? <==> Accepts(ids, id, cls)
    ensures r.Ok? ==> r.value == Resolve(id, dflt) && (id == H5P_DEFAULT || IsA(ids[id].obj.cls, cls))
    ensures r.Err? ==> r.error == NotPList(cls) && id != H5P_DEFAULT
  {
    if id == H5P_DEFAULT then Ok(dflt)
    else if ListIsA(ids, id, cls) then Ok(id)
    else Err(NotPList(cls))
  }

  /** H5I_object on a list followed by H5P_set can store `name` into it. */
  predicate CanSet(ids: map<Hid, Entry>, plist: Hid, name: PropName) {
    plist in ids && ids[plist].obj.PList? && name in ids[plist].obj.props
  }

  /** The entry with property `name` of its list set to `v`. */
  function WithProp(e: Entry, name: PropName, v: Hid): Entry
    requires e.obj.PList?
  {
    e.(obj := e.obj.(props := e.obj.props[name := v]))
  }

  /** H5I_object(plist_id) then H5P_set(plist, name, &v): fails when the id
      names no list, or when the list has no such property. */
  function SetProp(ids: map<Hid, Entry>, plist: Hid, name: PropName, v: Hid): (r: Result<map<Hid, Entry>>)
    ensures r.Ok? <==> CanSet(ids, plist, name)
    ensures r.Ok? ==> r.value.Keys == ids.Keys
    ensures r.Ok? ==> r.value[plist] == WithProp(ids[plist], name, v)
    ensures r.Ok? ==> forall id :: id in ids && id != plist ==> r.value[id] == ids[id]
    ensures r.Err? ==> r.error == (if plist in ids && ids[plist].obj.PList? then CantSetProperty(name) else PListMissing)
  {
    if plist !in ids || !ids[plist].obj.PList? then Err(PListMissing)
    else if name !in ids[plist].obj.props then Err(CantSetProperty(name))
    else Ok(ids[plist := WithProp(ids[plist], name, v)])
  }

  /** H5I_register2(tag, obj, aux, TRUE): a fresh identifier, the next one
      in order, or failure once the identifier space is used up. */
  function Register(s: State, tag: IdType, obj: Obj, aux: Option<Plugin>): (t: Transition<Hid>)
    ensures t.ret.Ok? <==> s.nextId <= MAX_ID
    ensures t.ret.Err? ==> t == Transition(s, Err(CantRegister))
    ensures t.ret.Ok? ==> t.ret.value == s.nextId && t.post.nextId == s.nextId + 1
    ensures t.ret.Ok? ==> t.post == s.(ids := s.ids[t.ret.value := Entry(tag, obj, aux)], nextId := t.post.nextId)
    ensures WellFormed(s) && t.ret.Ok? ==> t.ret.value !in s.ids && t.ret.value > 0
  {
    if s.nextId > MAX_ID then Transition(s, Err(CantRegister))
    else Transition(s.(ids := s.ids[s.nextId := Entry(tag, obj, aux)], nextId := s.nextId + 1), Ok(s.nextId))
  }

  /** What each class check of the entry points lets through, among the
      built-in list classes: a file-creation list passes where a
      group-creation list is required, because the class derives from it;
      every other required class admits only its own lists. */
  lemma ClassesAccepted(c: PClass)
    ensures IsA(c, GroupCreate) <==> c == GroupCreate || c == FileCreate
    ensures IsA(c, FileCreate) <==> c == FileCreate
    ensures IsA(c, FileAccess) <==> c == FileAccess
    ensures IsA(c, LinkCreate) <==> c == LinkCreate
    ensures IsA(c, GroupAccess) <==> c == GroupAccess
    ensures IsA(c, DatasetCreate) <==> c == DatasetCreate
    ensures IsA(c, DatasetAccess) <==> c == DatasetAccess
    ensures IsA(c, DatasetXfer) <==> c == DatasetXfer
  {
  }

  /** Registering an entry whose tag matches its object keeps the library
      invariant and only adds the new identifier. */
  lemma RegisterKeepsWellFormed(s: State, tag: IdType, obj: Obj, aux: Option<Plugin>)
    requires WellFormed(s)
    requires tag != BadId && (tag == GenPropList <==> obj.PList?)
    ensures WellFormed(Register(s, tag, obj, aux).post)
    ensures Extends(s, Register(s, tag, obj, aux).post)
  {
  }

  /** Storing a property into a list keeps the library invariant: the list
      keeps its tag, its class and its plugin. */
  lemma StoreKeepsWellFormed(s: State, plist: Hid, name: PropName, v: Hid)
    requires WellFormed(s) && CanSet(s.ids, plist, name)
    ensures WellFormed(s.(ids := s.ids[plist := WithProp(s.ids[plist], name, v)]))
  {
  }

  lemma SetPropKeepsWellFormed(s: State, plist: Hid, name: PropName, v: Hid)
    requires WellFormed(s) && CanSet(s.ids, plist, name)
    ensures WellFormed(s.(ids := SetProp(s.ids, plist, name, v).value))
    ensures Extends(s, s.(ids := SetProp(s.ids, plist, name, v).value))
  {
    StoreKeepsWellFormed(s, plist, name, v);
  }
}
