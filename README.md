# FastForward entry points of HDF5 (src/H5FF.c), modelled in Dafny

`src/H5FF.c` holds the "FastForward" public API of this HDF5 branch: eight
entry points that take identifiers (`hid_t`) and property lists, check their
arguments, substitute the process-wide default lists for `H5P_DEFAULT`, look
up the object and the VOL plugin (kept as auxiliary data on the parent
identifier), call the plugin, and register whatever the plugin made under a
new identifier. The entry points are `H5Fcreate_ff`, `H5Fopen_ff`,
`H5Gcreate_ff`, `H5Gopen_ff`, `H5Dcreate_ff`, `H5Dopen_ff`, `H5Dwrite_ff` and
`H5Dread_ff`.

The model has these parts:

- `types.dfy` (module `H5Types`) holds the library state as a value.
  - It is one identifier table with a type tag, an object and an optional plugin per identifier. Plugin objects and property lists share that table, as they do in HDF5.
  - It also holds the next identifier to hand out, the default property lists and `H5AC_dxpl_id`.
  - Every call made into a plugin is appended to a log. The plugin is an oracle: its reply (the object it made, or its status) is a parameter of the entry point. "The plugin was not called" therefore means "the log did not change".
  - The library invariant `WellFormed` is defined here.
- `registry.dfy` (module `H5Registry`) holds the identifier-table and property-list operations the entry points use. These are `H5I_object`, `H5I_get_aux`, `H5I_get_type`, `H5I_register2`, `H5P_isa_class` with the class derivation, `H5P_set`, and default-list substitution.
- `dispatch.dfy` (module `H5FF`) defines each entry point as a function from a state to the state after the call and the result. Each contract lists:
  - every failure point, in the code's order;
  - what the plugin is called with;
  - what is registered;
  - what a failure leaves behind.
- `library.dfy` (module `H5FFLibrary`) models the same entry points the way the C code runs them.
  - The class `Library` holds the mutable table, counter and log.
  - Each method mirrors the C function step by step, with an early return per `HGOTO_ERROR`.
  - Each method is proved to end in exactly the state and result the matching function of `H5FF` describes, and to keep the invariant.
- `session.dfy` (module `H5FFSession`) covers whole sessions of calls.
  - Every entry point keeps the invariant and only extends the table: no identifier disappears or changes its tag, plugin or plugin object.
  - Every plugin in the table is either one that was there at the start or one that a file create/open reply reported.
- `properties.dfy` (module `H5FFProperties`) relates the entry points to each other:
  - arguments are validated before anything is changed;
  - identifiers are added only on success, exactly one per success;
  - the plugin is inherited from the parent;
  - only some entry points roll back;
  - the transaction number is not used;
  - the flag words each file entry point accepts;
  - a file → group → dataset → write session routes everything to the plugin the file was made by.

Behaviour of the code that the model keeps, and that a reader might not expect:

- `H5Gcreate_ff` and `H5Dcreate_ff` store into the group or dataset creation list before they look the parent up. A later failure leaves those stores in place, and by default that list is the process-wide default list (`GcreateStoreSurvivesFailure`, the `Dcreate` contract).
- Only `H5Gcreate_ff`, `H5Dcreate_ff` and `H5Dopen_ff` close the object the plugin made, and only when registering it fails. `H5Gopen_ff`, `H5Fcreate_ff` and `H5Fopen_ff` do not (`RollbackIsAsymmetric`). A failure of the plugin itself needs no close.
- `H5Dwrite_ff` rejects only the identifier 0, and `H5Dread_ff` does not check the dataset identifier at all. Neither checks the identifier's type tag, so a group identifier that carries a plugin reaches the plugin's dataset write (`DwriteDoesNotCheckType`). Both look the plugin up before the object.
- A file-creation list is accepted where a group-creation list is required, because its class derives from the group-creation class (`ClassesAccepted`).
- `H5Fopen_ff` accepts `H5F_ACC_CREAT` and `H5F_ACC_DEBUG` (`OpenFlagsAccepted`).

A reader might expect a backend failure to close any partially built object and a failed call to leave nothing behind. The code does neither, and the model follows the code:
- there is a close only after a failed registration, and only in three entry points;
- property stores made before a later failure persist.

## Model

| member | source | states |
|---|---|---|
| H5Registry.ResolveList | src/H5FF.c:118-129 | `H5P_DEFAULT` becomes the class's default list; any other id passes iff it is a list whose class is or derives from the required one; otherwise it fails naming that class |
| H5Registry.SetProp | src/H5FF.c:252-256 | the store succeeds iff the id names a property list that has the property; on success only that property of that list changes; otherwise "no list" or "cannot set" |
| H5Registry.Register | src/H5FF.c:137-138 | registration fails iff the identifier space is used up, and then changes nothing; otherwise it returns the next identifier, which is positive and new, and adds exactly that entry |
| H5Registry.ClassesAccepted | src/H5FF.c:238-242 | exactly which of the built-in list classes pass each class check: file-creation lists pass as group-creation lists, and every other check admits only its own class |
| H5Registry.RegisterKeepsWellFormed | src/H5FF.c:137-138 | registering an entry whose tag matches its object keeps the invariant and only extends the table |
| H5Registry.StoreKeepsWellFormed | src/H5FF.c:252-256 | storing a property into a list keeps the invariant |
| H5Registry.SetPropKeepsWellFormed | src/H5FF.c:404-413 | a successful `H5P_set` keeps the invariant and only extends the table |
| H5FF.CallUnder | src/H5FF.c:258-280 | no parent object: fails with nothing called; no plugin: likewise; else the plugin is called once with the parent's object by self, its plugin, `H5AC_dxpl_id` and eq_id; success iff the plugin made something and the space is not used up; on failed registration the object is closed through the same plugin exactly when the entry point does so |
| H5FF.Fcreate | src/H5FF.c:94-142 | name, flag and list checks in order, each failing with nothing changed; TRUNC with EXCL rejected; then one plugin call with the flags and resolved lists; no reply means "backend failed", a reply with the space used up means "cannot register"; success iff the checks pass, the plugin made a file and the space is not used up, and then a FILE id carrying the reported plugin is the only change; failure leaves the table as it was |
| H5FF.Fopen | src/H5FF.c:161-194 | name, flag and access-list checks in order; one plugin open call; no reply means "backend failed", a reply with the space used up means "cannot register"; success iff all pass, the plugin opened the file and the space is not used up; then a FILE id with the reported plugin; failure leaves the table as it was |
| H5FF.Gcreate | src/H5FF.c:213-283 | name and three list checks in order, none changing anything; the resolved lcpl is stored into the resolved gcpl before the parent is looked up, a failed store naming a missing list or the missing property; a failed lookup is "bad location" or "no VOL info"; once past the checks, the store and the parent lookup, the log grows by exactly the plugin's group create — with the parent's object as it is after the store, the parent's plugin, the name, the resolved lists, `H5AC_dxpl_id` and eq_id — and, after a failed registration, the close; no reply means "backend failed"; success iff all checks, the store, the parent lookup, the plugin and registration succeed; the new GROUP id carries the parent's plugin; on failed registration the group is closed through the same plugin and eq_id |
| H5FF.Gopen | src/H5FF.c:302-347 | name and access-list checks; parent lookup, failing with "bad location" or "no VOL info"; one plugin open call; no reply means "backend failed", a reply with the space used up means "cannot register"; success iff all succeed; GROUP id with the parent's plugin; no close on failed registration |
| H5FF.StoreDcpl | src/H5FF.c:404-413 | the datatype, dataspace and lcpl stores in order; all succeed iff the list has the three properties; a failed store stops the sequence and leaves the earlier ones in place |
| H5FF.Dcreate | src/H5FF.c:366-440 | the checks in order; the three stores before the parent lookup, with partial stores kept on failure and each failure naming the list or property; a failed lookup is "bad location" or "no VOL info"; once past them and the parent lookup, the log grows by exactly the plugin's dataset create — with the parent's object as it is after the stores, the parent's plugin, the name, the resolved lists, `H5AC_dxpl_id` and eq_id — and, after a failed registration, the close; no reply means "backend failed"; success iff everything succeeds; DATASET id with the parent's plugin; on failed registration the dataset is closed through the same plugin and eq_id |
| H5FF.Dopen | src/H5FF.c:459-507 | name and access-list checks; parent lookup, failing with "bad location" or "no VOL info"; one plugin open call, no reply meaning "backend failed"; DATASET id with the parent's plugin; the error is "cannot register" exactly when everything else succeeded and the space is used up, and the dataset is then closed |
| H5FF.Dwrite | src/H5FF.c:523-559 | id 0 rejected; transfer list checked; no plugin or object: fails with nothing called; otherwise exactly one write call with the resolved transfer list; returns the plugin's status iff it is not negative; nothing but the log changes |
| H5FF.Dread | src/H5FF.c:575-610 | negative dataspace ids rejected; transfer list checked; plugin then object lookup; exactly one read call; returns the plugin's status iff it is not negative; nothing but the log changes |
| H5FFSession.FcreateKeepsWellFormed | src/H5FF.c:94-142 | `H5Fcreate_ff` keeps the invariant and only extends the table |
| H5FFSession.FopenKeepsWellFormed | src/H5FF.c:161-194 | `H5Fopen_ff` keeps the invariant and only extends the table |
| H5FFSession.FileRegisterKeepsWellFormed | src/H5FF.c:132-138 | logging the file call and registering the file keeps the invariant |
| H5FFSession.LogOnlyKeepsWellFormed | src/H5FF.c:553-555 | calls that only reach the plugin keep the invariant |
| H5FFSession.CallUnderKeepsWellFormed | src/H5FF.c:258-280 | the shared lookup/call/register/close tail keeps the invariant |
| H5FFSession.GcreateKeepsWellFormed | src/H5FF.c:213-283 | `H5Gcreate_ff` keeps the invariant and only extends the table |
| H5FFSession.GopenKeepsWellFormed | src/H5FF.c:302-347 | `H5Gopen_ff` keeps the invariant and only extends the table |
| H5FFSession.StoreDcplKeepsWellFormed | src/H5FF.c:404-413 | the dataset-creation stores keep the invariant, whether or not all succeed |
| H5FFSession.DcreateKeepsWellFormed | src/H5FF.c:366-440 | `H5Dcreate_ff` keeps the invariant and only extends the table |
| H5FFSession.DopenKeepsWellFormed | src/H5FF.c:459-507 | `H5Dopen_ff` keeps the invariant and only extends the table |
| H5FFSession.DwriteKeepsWellFormed | src/H5FF.c:523-559 | `H5Dwrite_ff` keeps the invariant and only extends the log |
| H5FFSession.DreadKeepsWellFormed | src/H5FF.c:575-610 | `H5Dread_ff` keeps the invariant and only extends the log |
| H5FFSession.StepKeepsWellFormed | src/H5FF.c:94-610 | any single entry-point call keeps the invariant and only extends the table |
| H5FFSession.RunKeepsWellFormed | src/H5FF.c:94-610 | over any session of calls the invariant holds and identifiers keep their tag, plugin and plugin object |
| H5FFSession.StepPlugins | src/H5FF.c:94-610 | one call adds at most the plugin its reply reports; group and dataset calls add none |
| H5FFSession.GopenPlugins | src/H5FF.c:333-342 | `H5Gopen_ff` adds no plugin |
| H5FFSession.DopenPlugins | src/H5FF.c:489-498 | `H5Dopen_ff` adds no plugin |
| H5FFSession.GcreatePlugins | src/H5FF.c:265-274 | `H5Gcreate_ff` adds no plugin |
| H5FFSession.DcreatePlugins | src/H5FF.c:422-431 | `H5Dcreate_ff` adds no plugin |
| H5FFSession.RunPlugins | src/H5FF.c:94-610 | after any session, every plugin in the table was there at the start or was reported by a file create/open reply |
| H5FFProperties.RejectedCallChangesNothing | src/H5FF.c:94-610 | a call whose argument checks fail returns an error and leaves the state, log included, unchanged |
| H5FFProperties.FailedCallAddsNoIdentifier | src/H5FF.c:274-280 | a failed call adds no identifier and uses none up; write and read never change the table |
| H5FFProperties.SuccessfulCallRegistersOne | src/H5FF.c:137-138 | a successful create/open returns the model's next identifier (one counter for all types, standing in for HDF5's per-type encoded ids), which was not in use, adds exactly it, and tags it FILE, GROUP or DATASET as the entry point says |
| H5FFProperties.NewIdentifierPlugin | src/H5FF.c:265-275 | a new file id carries the plugin the reply reported; a new group or dataset id carries the parent's plugin |
| H5FFProperties.TransIgnored | src/H5FF.c:213-610 | for every group and dataset entry point, the transaction number changes neither the state nor the result |
| H5FFProperties.CreateFlagsAccepted | src/H5FF.c:108-115 | `H5Fcreate_ff` accepts exactly the combinations of TRUNC, EXCL and DEBUG without both TRUNC and EXCL |
| H5FFProperties.OpenFlagsAccepted | src/H5FF.c:173-176 | `H5Fopen_ff` accepts exactly the public flags without TRUNC or EXCL |
| H5FFProperties.RollbackIsAsymmetric | src/H5FF.c:94-507 | for any call that passes its checks, stores and parent lookup and gets a reply, with the space used up: group create, dataset create and dataset open log a close of the made object through the same plugin and eq_id; group open and file create/open make no further call; all fail with "cannot register" |
| H5FFProperties.GcreateStoreSurvivesFailure | src/H5FF.c:252-266 | a group create that fails at the parent lookup has called nothing but has stored the lcpl into the default group-creation list |
| H5FFProperties.DwriteDoesNotCheckType | src/H5FF.c:534-555 | a GROUP identifier carrying a plugin is passed to the plugin's dataset write, and the plugin's status is returned |
| H5FFProperties.FileStep | src/H5FF.c:94-142 | a file create with default lists adds exactly the new FILE id and one call |
| H5FFProperties.GroupStep | src/H5FF.c:213-283 | a group create with default lists adds the new GROUP id with the parent's plugin; only the default group-creation list otherwise changes |
| H5FFProperties.DatasetStep | src/H5FF.c:366-440 | a dataset create with default lists adds the new DATASET id with the parent's plugin; only the default dataset-creation list otherwise changes |
| H5FFProperties.WriteStep | src/H5FF.c:545-555 | a write on an identifier with a plugin appends exactly the write call and changes nothing else |
| H5FFProperties.MakeThree | src/H5FF.c:94-440 | file, group, dataset in turn get three new identifiers, all carrying the file's plugin; they are consecutive only because the model draws every id from one counter |
| H5FFProperties.MakeAndWriteRoutesToFilePlugin | src/H5FF.c:94-559 | the session file → group → dataset → write gives new identifiers with the file's plugin (consecutive under the model's single counter, not HDF5's per-type ids) and ends with the write reaching that plugin with the dataset it made |
| H5FFLibrary.Library.constructor | src/H5FF.c:101-103 | a library in a given well-formed state |
| H5FFLibrary.Library.RegisterId | src/H5FF.c:137-138 | in-place `H5I_register2`: the new state is the registration's and the result is the id or FAIL |
| H5FFLibrary.Library.StoreProperty | src/H5FF.c:252-256 | in-place `H5I_object` then `H5P_set`: on success only that property changes; otherwise the error and no change |
| H5FFLibrary.Library.StoreDatasetCreation | src/H5FF.c:404-413 | the three in-place stores with early exit, ending as `StoreDcpl` says |
| H5FFLibrary.Library.CallPlugin | src/H5FF.c:553-555 | a plugin call appends to the log and changes nothing else |
| H5FFLibrary.Library.CallUnderParent | src/H5FF.c:258-280 | the in-place lookup, call, register and close tail ends as `CallUnder` says |
| H5FFLibrary.Library.CreateFile | src/H5FF.c:94-142 | `H5Fcreate_ff` step by step ends in the state and result `Fcreate` gives, keeping the invariant |
| H5FFLibrary.Library.OpenFile | src/H5FF.c:161-194 | `H5Fopen_ff` step by step ends as `Fopen` gives |
| H5FFLibrary.Library.CreateGroup | src/H5FF.c:213-283 | `H5Gcreate_ff` step by step ends as `Gcreate` gives |
| H5FFLibrary.Library.OpenGroup | src/H5FF.c:302-347 | `H5Gopen_ff` step by step ends as `Gopen` gives |
| H5FFLibrary.Library.CreateDataset | src/H5FF.c:366-440 | `H5Dcreate_ff` step by step ends as `Dcreate` gives |
| H5FFLibrary.Library.OpenDataset | src/H5FF.c:459-507 | `H5Dopen_ff` step by step ends as `Dopen` gives |
| H5FFLibrary.Library.WriteDataset | src/H5FF.c:523-559 | `H5Dwrite_ff` step by step ends as `Dwrite` gives |
| H5FFLibrary.Library.ReadDataset | src/H5FF.c:575-610 | `H5Dread_ff` step by step ends as `Dread` gives |

## Left out

- The asynchronous test/wait routines and the async-flag helpers (`H5AOtest`, `H5AOwait`, `H5FF_set_async_flag`, `H5FF_get_async_req`, `H5FF_reset_async_flag`, src/H5FF.c:612-802) are left out. They sit inside `#if 0` and are not compiled.
- Asynchronous completion of plugin calls and the event queue `eq_id` are left out. eq_id is passed through to the plugin unchanged and nothing more.
- The transaction number is accepted and never used by the code. The model takes it and proves that it has no effect.
- `H5F_init`, `FUNC_ENTER_API`/`FUNC_LEAVE_API` and the error stack are left out. Library initialisation is taken as done, and the constructor takes an initialised state. Each distinct error cause is one `Error` value, and the C result on failure is `FAIL` (`ApiReturn`).
- Identifier reference counts and `H5I_dec_ref` are left out. No entry point in the core releases an identifier.
- What the plugins do is left out: file, group and dataset contents, and the bytes `H5Dread_ff` places in the caller's buffer. A plugin's reply is a parameter, and buffers are opaque addresses.
- The close status on rollback is left out. A failing close only pushes an error, and the call returns FAIL either way.
- `H5VL_get_object` (used by `H5Dcreate_ff`/`H5Dopen_ff`) is defined in the VOL layer outside src/H5FF.c and is not part of this model. It is modelled like `H5I_object`: the object registered under the identifier, or none.
- Property-list classes derived by users (`H5Pcreate_class`) are left out: the model's classes are the built-in ones the entry points name, so `ClassesAccepted` speaks of those only. A list of a user class derived from a required class would also pass that class check.
- The values of the `H5F_ACC_*` flags, the width of `hid_t` and the property-list class derivation come from HDF5 headers that are not part of this model. They are modelled as in those headers: the flags are 1, 2, 4, 8 and 0x10, and the public-flags mask is 0xff.
- The identifier space is modelled as one counter that fails once it passes `MAX_ID`. HDF5's per-type counters and id encoding are not modelled.
- The C++ wrappers (c++/src/H5Location.cpp, c++/src/H5ArrayType.h) are callers of the library, not part of this layer.
- Concurrency and locking around the identifier table are left out. Calls are modelled one after another.
