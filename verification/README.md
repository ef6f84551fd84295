# ReQL command builders and the session token registry

This project models two parts of a Rust driver for RethinkDB. Both are written in Dafny.

1. **The ReQL command builders** (`src/cmd/*.rs`, `reql-rust/src/cmd/*.rs`, `neor/src/cmd/object.rs`).
   - A query is a tree of terms. Each term has a type, an ordered list of argument terms and an optional options object. A term can also be a JSON literal.
   - Builders grow that tree by value:
     - `with_arg` appends an argument;
     - `with_parent` puts the chained-from term in front;
     - `with_opts` attaches the options.
   - Option structs serialise field by field. Fields marked "skip if none" are left out when unset.
   - The wire form is RethinkDB's JSON term encoding: `[type_code, [args...]]`, or `[type_code, [args...], {opts...}]` when the options object is non-empty. JSON arrays inside literals are sent as MAKE_ARRAY terms (`[2, [...]]`).
   - `Reql.Decode` reads a wire value back, and it is proved to invert `Reql.Serialise`.
   - Every builder states its result on the wire, or in terms of its inputs. Each builder's `_with_parent` is stated as an inverse: `ParentOf` and `WithoutParent` take the result apart again.

2. **The session's request registry** (`neor/src/connection.rs`). This part is imperative.
   - `InnerSession` is a class. Its fields are:
     - the default database;
     - a map from request token to response channel;
     - the token counter;
     - the `broken` flag and the changefeed flag.
   - `Session` and `Connection` are classes that refer to it.
   - A ghost log `issued` records the tokens handed out. The invariant `Valid()` says the following:
     - while the session is not broken, tokens were handed out in strictly increasing order and all lie below the counter;
     - every registered channel sits under a token that was handed out.
   - `Session.Connection` is proved to keep that invariant. It registers exactly one new channel, under a token never handed out before.
   - The outcome of a network request is a parameter of the methods that would send one.

Files:
- `json.dfy`: JSON values and serde's sparse objects.
- `term.dfy`: terms, wire encoding and decoding, term codes.
- `connection.dfy`: the registry.
- One file per command builder.

## Model

| member | source | states |
|---|---|---|
| Reql.Serialise | reql-rust/src/cmd/insert.rs:123-126 | A term goes on the wire as `[code, [args]]`, with the argument count preserved. The options object is a third element exactly when options are attached and non-empty. |
| Reql.SerialiseRoundTrip | reql-rust/src/cmd/insert.rs:123-126 | Decoding the wire form gives back the term. The only change is that an empty options object and no options object are the same thing. |
| Reql.CodeRoundTrip | reql-rust/src/cmd/insert.rs:125 | Every term type's ql2 code reads back as that term type. Distinct types have distinct codes. |
| Reql.FoldWithArg | neor/src/cmd/object.rs:11-15 | Folding `with_arg` over a list appends one converted argument per element, in order. Type, options and existing arguments are untouched. |
| Reql.AddToCmdAppends | src/cmd/le.rs:9 | `add_to_cmd` appends the bundle's arguments in order. Single gives one argument; Many gives each element. |
| Reql.WithParentInverse | reql-rust/src/cmd/between.rs:72-75 | `with_parent` puts the parent first. `ParentOf` and `WithoutParent` recover the parent and the original term. |
| Json.SparseObjectGet | reql-rust/src/cmd/insert.rs:22-33 | In a struct whose fields skip `None`, a key is present exactly when its field is set, and then carries the field's value. |
| InsertCmd.New | reql-rust/src/cmd/insert.rs:36-41 | The wire form is `[56, [document]]`. Options are at their defaults and there is no conflict function. |
| InsertCmd.OptionFieldsShape | reql-rust/src/cmd/insert.rs:22-33 | Each of the four option keys is present exactly when its field is set, with that field's value. No other key appears. |
| InsertCmd.DefaultOptionIsEmpty | reql-rust/src/cmd/insert.rs:20-33 | Default options serialise to an empty object. |
| InsertCmd.SettersTouchOwnKey | reql-rust/src/cmd/insert.rs:69-87 | Each setter writes its own key. The other three keys, the term and the conflict function are unchanged. |
| InsertCmd.SettersLastWriteWins | reql-rust/src/cmd/insert.rs:69-87 | For each of the four setters, a second call overrides the first. |
| InsertCmd.SettersCommute | reql-rust/src/cmd/insert.rs:69-87 | Setters of different fields commute, for all six pairs. |
| InsertCmd.WithConflictFunc | reql-rust/src/cmd/insert.rs:89-92 | Sets the function slot only. The term and the serialised options are unchanged. |
| InsertCmd.MakeQuery | reql-rust/src/cmd/insert.rs:54-61 | With a conflict function, the options ride on that function, which is appended as one more argument. Otherwise the options are attached to the Insert term. |
| InsertCmd.WithParent | reql-rust/src/cmd/insert.rs:95-98 | The parent becomes argument 0 and the old arguments follow. Splitting the parent off gives back the original term. Options and conflict function are kept. |
| InsertCmd.IntoCommand | reql-rust/src/cmd/insert.rs:101-105 | `into` hands on the Insert term as built. |
| InsertCmd.IntoCommandDropsOptions | reql-rust/src/cmd/insert.rs:101-105 | What `into` hands on does not depend on the options or the conflict function; only `make_query` sends them. |
| InsertCmd.TableInsertWireForm | reql-rust/src/cmd/insert.rs:117-126 | `r.table("foo").insert(doc)` is `[56, [[15, ["foo"]], doc]]`: the table term first, no options object. |
| BetweenCmd.New | reql-rust/src/cmd/between.rs:28-36 | The wire form is `[182, [lower, upper]]` in that order. All three options are unset. |
| BetweenCmd.OptionFieldsShape | reql-rust/src/cmd/between.rs:16-25 | Each key is present exactly when set. The object is empty exactly for the defaults. |
| BetweenCmd.MakeQuery | reql-rust/src/cmd/between.rs:45-54 | The accumulated options are attached. They are sent as a third element exactly when some option was set. |
| BetweenCmd.SettersTouchOwnKey | reql-rust/src/cmd/between.rs:56-69 | Each setter writes only its own key and leaves the term alone. |
| BetweenCmd.WithParent | reql-rust/src/cmd/between.rs:72-75 | The parent can be split off again, giving back the original term. Options are kept. |
| BetweenCmd.ChainedArguments | reql-rust/src/cmd/between.rs:28-34 | Chained `between` has the arguments `[parent, lower, upper]`. |
| MaxCmd.Constructor | reql-rust/src/cmd/max.rs:58-66 | `[148, []]`, or `[148, [arg]]` when an argument is given. |
| MaxCmd.New | reql-rust/src/cmd/max.rs:22-24 | `[148, []]`: no arguments. |
| MaxCmd.NewByValue | reql-rust/src/cmd/max.rs:26-29 | `[148, ["field"]]`. |
| MaxCmd.NewByFunc | reql-rust/src/cmd/max.rs:31-34 | The function is the only argument: `[148, [func]]`. |
| MaxCmd.WithIndex | reql-rust/src/cmd/max.rs:44-51 | The options are exactly `{"index": name}`, attached directly to the term. The arguments stay, and the options are sent as a third element. |
| MaxCmd.WithParent | reql-rust/src/cmd/max.rs:53-56 | The parent can be split off again, giving back the original term. |
| MaxCmd.GetParent | reql-rust/src/cmd/max.rs:71-80 | `get_parent` and `into` hand on the term as built, options included. `ChainedByValue` gives its arguments after chaining. |
| MaxCmd.ChainedByValue | reql-rust/src/cmd/max.rs:71-80 | Chained `max("f")` hands on the arguments `[parent, "f"]`. |
| GetAllCmd.New | reql-rust/src/cmd/get_all.rs:22-31 | One string argument per key, in key order, and as many arguments as keys. An empty key list is accepted. |
| GetAllCmd.MakeQuery | reql-rust/src/cmd/get_all.rs:37-46 | The options are exactly the one-key object `{"index": ...}`. The key is always sent, as `null` when no index was chosen. Type and arguments are unchanged. |
| GetAllCmd.WithIndex | reql-rust/src/cmd/get_all.rs:48-51 | Sets the index and leaves the term alone. |
| GetAllCmd.WithParent | reql-rust/src/cmd/get_all.rs:53-56 | The parent can be split off again. Options are kept. |
| GetAllCmd.GetParent | reql-rust/src/cmd/get_all.rs:61-64 | `get_parent` hands on the bare term without the option slot. `GetParentDropsIndex` shows the index is not carried. |
| GetAllCmd.GetParentDropsIndex | reql-rust/src/cmd/get_all.rs:61-64 | What `get_parent` hands on is the same whatever index was set. Its wire form differs from `make_query`'s. |
| OuterJoinCmd.New | reql-rust/src/cmd/outer_join.rs:21-28 | The arguments are `[other_table, func]`; the wire form is `[49, [...]]`. |
| OuterJoinCmd.WithParent | reql-rust/src/cmd/outer_join.rs:47-50 | The parent can be split off again. |
| OuterJoinCmd.MakeQuery | reql-rust/src/cmd/outer_join.rs:37-45 | `make_query` runs the term as built, the same term `get_parent` hands on, with no options added. |
| OuterJoinCmd.GetParent | reql-rust/src/cmd/outer_join.rs:57-60 | `get_parent` hands on the term unchanged. `ChainedWireForm` gives its wire form. |
| OuterJoinCmd.ChainedWireForm | reql-rust/src/cmd/outer_join.rs:37-50 | The chained query is `[49, [parent, other_table, func]]`, with no options. |
| SetIntersectionCmd.New | reql-rust/src/cmd/set_intersection.rs:14-19 | The whole value list is one literal argument: `[89, [[2, [...]]]]`. |
| SetIntersectionCmd.WithParent | reql-rust/src/cmd/set_intersection.rs:29-32 | The parent can be split off again. |
| SetIntersectionCmd.GetParent | reql-rust/src/cmd/set_intersection.rs:38-48 | `get_parent` and `into` hand on the term as built. `ChainedShape` gives its arguments after chaining. |
| SetIntersectionCmd.ChainedShape | reql-rust/src/cmd/set_intersection.rs:38-48 | What `get_parent`/`into` hands on is `[parent, values]` with no options. |
| ConcatMapCmd.New | reql-rust/src/cmd/concat_map.rs:15-20 | Exactly one argument, the function: `[40, [func]]`. |
| ConcatMapCmd.WithParent | reql-rust/src/cmd/concat_map.rs:30-33 | The parent can be split off again. |
| ConcatMapCmd.GetParent | reql-rust/src/cmd/concat_map.rs:40-50 | `get_parent` and `into` hand on the term as built. `ChainedWireForm` gives its wire form. |
| ConcatMapCmd.ChainedWireForm | reql-rust/src/cmd/concat_map.rs:40-50 | The chained form is `[40, [parent, func]]`. |
| LimitCmd.New | reql-rust/src/cmd/limit.rs:15-20 | `[71, [step]]`, where the step is a non-negative `usize`. |
| LimitCmd.WithParent | reql-rust/src/cmd/limit.rs:30-33 | The parent can be split off again. |
| LimitCmd.GetParent | reql-rust/src/cmd/limit.rs:40-50 | `get_parent` and `into` hand on the term as built. `ChainedWireForm` gives its wire form. |
| LimitCmd.ChainedWireForm | reql-rust/src/cmd/limit.rs:40-50 | The chained form is `[71, [parent, step]]`. |
| PolygonSubCmd.New | reql-rust/src/cmd/polygon_sub.rs:11-15 | The polygon's stored term is the one argument: `[171, [inner]]`. A polygon without one panics, so it is a precondition. |
| PolygonSubCmd.WithParent | reql-rust/src/cmd/polygon_sub.rs:28-31 | The parent can be split off again. |
| PolygonSubCmd.GetParent | reql-rust/src/cmd/polygon_sub.rs:36-46 | `get_parent` and `into` hand on the term as built. `ChainedWireForm` gives its wire form. |
| PolygonSubCmd.ChainedWireForm | reql-rust/src/cmd/polygon_sub.rs:36-46 | The chained form is `[171, [outer, inner]]`. |
| IndexDropCmd.New | src/cmd/index_drop.rs:4-8 | `[76, ["name"]]`, which decodes back to the same term. |
| DbCreateCmd.New | src/cmd/db_create.rs:5-9 | `[57, ["name"]]`, which decodes back to the same term. |
| EqCmd.Arg | reql-rust/src/cmd/eq.rs:9-23 | A ready argument passes through unchanged. Any other value becomes `[17, [value]]`. |
| ObjectCmd.New | neor/src/cmd/object.rs:6-16 | An Object term with one argument per value, in iteration order. There is no options object and no parity check. |
| LeCmd.IntoLeOpts | src/cmd/le.rs:16-28 | A parameter gives Single. A list gives Many, with one literal per element, same length and order. |
| LeCmd.New | src/cmd/le.rs:8-10 | An Le term whose arguments are the parameter, or the list's literals in order. An empty list gives no arguments. |
| GtCmd.IntoGtOpts | src/cmd/gt.rs:16-28 | A parameter gives Single. A list gives Many, with one literal per element, same length and order. |
| GtCmd.New | src/cmd/gt.rs:8-10 | A Gt term whose arguments are the parameter, or the list's literals in order. |
| MapCmd.IntoMapOpts | src/cmd/map.rs:24-44 | A function alone gives no bundle. One sequence gives Single and several give Many. The function is always returned. |
| MapCmd.New | src/cmd/map.rs:9-18 | The sequences in order, then the function as the last argument. No options. |
| DistanceCmd.IntoDistanceOpts | src/cmd/distance.rs:25-47 | The second geometry is present exactly for the two-geometry forms. The options are the defaults unless given. |
| DistanceCmd.New | src/cmd/distance.rs:10-19 | Arguments `[g]` or `[g, h]` in order. The options object is always attached, and is empty for the defaults. |
| DistanceCmd.OptionFieldsShape | src/cmd/distance.rs:49-60 | `geo_system` and `unit` are present exactly when set. The object is empty exactly for the defaults. |
| DistanceCmd.WireOptions | src/cmd/distance.rs:10-19 | An options object appears on the wire exactly when some option was given. |
| DistanceCmd.TwoPointsInKilometres | src/cmd/distance.rs:71-84 | Two points with `unit = km` give arguments `[p1, p2]` and options `{"unit": "km"}`. |
| LineCmd.New | src/cmd/line.rs:20-28 | Requires at least two points. The tags are Geometry and LineString, and there is one coordinate per point, in order. |
| LineCmd.IntoCommand | src/cmd/line.rs:93-102 | A Line term with one Point term per coordinate, in order. No options. |
| LineCmd.IntoCommandKeepsPoints | src/cmd/line.rs:93-102 | The i-th argument is a Point term carrying the i-th point's longitude, then its latitude. |
| LineCmd.Fill | src/cmd/line.rs:88-90 | A Fill term whose parent is the line's term. Splitting the parent off leaves a bare Fill term. |
| ReconfigureCmd.New | src/cmd/reconfigure.rs:11-13 | A Reconfigure term with no arguments and the options attached. `primary_replica_tag` is present exactly when the replicas are a tag map. |
| ReconfigureCmd.TagCountsJson | src/cmd/reconfigure.rs:59-64 | A tag map is sent as an object with one `tag: count` entry per tag. |
| ReconfigureCmd.InnerReplicas | src/cmd/reconfigure.rs:66-76 | `replicas` is sent whenever it is set. The primary tag is sent exactly when the replicas are a map. |
| ReconfigureCmd.OptionFieldsKeys | src/cmd/reconfigure.rs:42-57 | `dry_run`, `emergency_repair` and `shards` are present exactly when set, with their values. `replicas` and `primary_replica_tag` come from the match. |
| ReconfigureCmd.ReplicasShapes | src/cmd/reconfigure.rs:66-76 | An integer is sent bare with no tag. A map is sent as an object, with the given tag beside it. None sends neither key. The tag is present exactly for a map. |
| ReconfigureCmd.ShardsUnchecked | src/cmd/reconfigure.rs:18-19 | Every `u8` shards value is sent as given; the documented 1-64 range is not checked. |
| ReconfigureCmd.TwoShardsOneReplica | src/cmd/reconfigure.rs:103-105 | `shards(2).replicas(Int(1))` sends exactly `{"shards": 2, "replicas": 1}`. |
| Sessions.StopArgument | neor/src/connection.rs:391-395 | No argument exactly when waiting for noreply writes. Otherwise the argument is the literal `{"noreply": false}`. |
| Sessions.InnerSession.Token | neor/src/connection.rs:37-46 | Returns the counter and advances it by one modulo 2^64. Handing out `u64::MAX` marks the session broken. While the session is not broken, the token was never handed out before. The invariant is kept. |
| Sessions.InnerSession.MarkBroken | neor/src/connection.rs:48-50 | Sets `broken`; nothing else changes. |
| Sessions.InnerSession.Broken | neor/src/connection.rs:52-57 | Fails with ConnectionBroken exactly when the session is broken. |
| Sessions.InnerSession.MarkChangeFeed | neor/src/connection.rs:59-61 | Sets the changefeed flag; nothing else changes. |
| Sessions.InnerSession.UnmarkChangeFeed | neor/src/connection.rs:63-65 | Clears the changefeed flag; nothing else changes. |
| Sessions.InnerSession.IsChangeFeed | neor/src/connection.rs:67-69 | True exactly when `change_feed` would refuse a connection. |
| Sessions.InnerSession.ChangeFeed | neor/src/connection.rs:71-76 | Fails with ConnectionLocked exactly while a changefeed runs. |
| Sessions.Session.Connection | neor/src/connection.rs:115-122 | A broken session fails with ConnectionBroken, and a locked one with ConnectionLocked; either way nothing changes. Otherwise it returns a fresh, open connection on a token never handed out before and not registered. The map gains exactly that token, bound to the connection's channel. The invariant is kept. |
| Sessions.Session.TwoConnections | neor/src/connection.rs:115-122 | Two successful connections hold strictly increasing tokens, and both channels stay registered. |
| Sessions.Session.Use | neor/src/connection.rs:220-224 | Replaces the default database and nothing else. |
| Sessions.Session.IsBroken | neor/src/connection.rs:357-359 | True exactly when `broken` would refuse a connection. |
| Sessions.Session.Close | neor/src/connection.rs:352-354 | Never sends a STOP. If a changefeed runs, the temporary connection is refused with ConnectionLocked and nothing changes. Otherwise it succeeds with the channel map unchanged. The counter has moved by one and the temporary token is logged as issued. The session is broken afterwards exactly when that token was `u64::MAX`. The invariant is kept. |
| Sessions.Connection.constructor | neor/src/connection.rs:371-378 | Holds the session, channel and token, and starts open. |
| Sessions.Connection.Close | neor/src/connection.rs:380-407 | Without a changefeed it does nothing and returns Ok. Otherwise it marks the connection closed and sends STOP with `StopArgument(noreply_wait)`. The changefeed flag is cleared only if that request succeeds. The channel map, counter and database are untouched. |
| Sessions.Connection.Closed | neor/src/connection.rs:409-411 | Reads the closed flag that `close` sets. |
| Sessions.Connection.SetClosed | neor/src/connection.rs:413-415 | Sets the closed flag. |
| Sessions.Connection.Drop | neor/src/connection.rs:418-425 | Removes only this connection's own token from the map. Afterwards the changefeed flag is off, whichever connection set it. The invariant is kept. |

## Left out

- Running queries (`run`, the `Stream` returned by `make_query`) is left out. The model stops at the term that would be run: async I/O, the wire reader and cursor streaming are outside it.
- `Session::reconnect`, `noreply_wait` and `server` are left out. They compose `close` and `connection` with network requests and a timeout.
- `Connection::request` is not modelled: the success or failure of the STOP request is a parameter (`requestOk`). The stream, TLS and the mutexes are left out.
- Concurrency is not modelled. Atomics and `DashMap` become plain fields updated one call at a time, so interleavings between tasks are out of scope.
- `Connection` is `Clone` and shares `closed` through an `Arc`. The model has one `Connection` object per token, and that sharing is not modelled.
- Sessions.InnerSession.Token: in a debug build `x + 1` overflows and panics at `u64::MAX`. The model follows the release build, which wraps to 0.
- The command module that defines `Command`, `with_arg`, `with_parent`, `with_opts`, `CmdOpts::add_to_cmd` and `serialise` is not part of this model. The model takes the following reading:
  - `with_arg` appends;
  - `with_parent` prepends;
  - `with_opts` replaces the options;
  - `into_arg::<()>().into_cmd()` returns the term unchanged;
  - the wire form is RethinkDB's JSON term encoding with ql2.proto's term codes.
- The type definitions for `Durability`, `ReturnChanges`, `Conflict`, `Status`, `GeoSystem`, `Unit` and `EmergencyRepair` are not part of this model. Their wire names are the ones RethinkDB's query language documents.
- `point.rs` and `fill.rs` are not part of this model. `Point::new(lon, lat).into()` is modelled as a Point term with the two numbers as arguments, and `fill::new()` as a bare Fill term.
- `Line` also derives serde `Serialize`/`Deserialize` into a GeoJSON-like object. Only its conversion to a term is modelled.
- Floating-point numbers are opaque 64-bit payloads; no arithmetic on them is modelled.
- ReconfigureCmd.TagCountsJson: the tag map is a `HashMap`, whose iteration order is unspecified. The model takes the tags as an ordered list.
- Type-level parameters (`PhantomData<T>`, the generic `Serialize` bounds) have no runtime content and are not modelled. Values that are serialised appear as JSON.
- The code does four things worth knowing, and the model follows them:
  - `Drop` sends no STOP; only `Connection::close` does (neor/src/connection.rs:380-407, 418-425).
  - `Drop` clears the changefeed flag whichever connection set it (neor/src/connection.rs:418-425).
  - The token `u64::MAX` is still handed out; only the next `connection()` is refused (neor/src/connection.rs:37-46, 115-122).
  - `Session::close` is refused with ConnectionLocked while a changefeed runs, because its temporary connection is refused (neor/src/connection.rs:115-122, 352-354).
