# FIUBA-Map storage layer and status bar, modelled in Dafny

FIUBA-Map is a web app where students of the engineering school of the
University of Buenos Aires track their progress through a degree plan. This
project models three parts of it:

- **The current store** (`src/dbutils.ts`). It serves one plan
  (`biomedica-2022`) and saves each student's plan map as a *bucketed state*:
  - approved courses with their grades;
  - the ids of regularised courses;
  - the ids of courses not approved;
  - two checkbox flags.

  The model covers the codec between map and state (`buildStateFromMap` /
  `buildMapFromState`) and the local-storage database. It also covers the
  three backends an operation can take: the offline switch first, then
  Supabase, then nothing.
- **The legacy store** (`FIUBA-Map-master/FIUBA-Map-master/src/dbutils.ts`).
  It keeps one login and one saved map per plan, with these backends:
  - local storage, using keyed upserts;
  - Supabase tables upserted on (student, plan);
  - Google Sheets fed by Google Forms. Reading these scans a column of
    student numbers with `indexOf`.
- **The footer status bar** (`src/components/Footer/StatusBar.tsx`). It shows
  the approved-course count, the mandatory-course percentage and the
  checkbox bars.

Modules:

| module | file | contents |
|---|---|---|
| `Wrappers` | wrappers.dfy | `Option` |
| `UserType` | usertype.dfy | course entries, plan maps, users, logins, saved maps |
| `Backend` | backend.dfy | the configuration and the first-match backend choice |
| `LocalStorage` | local_storage.dfy | the local database both stores share (generic in the record type) |
| `StateCodec` | codec.dfy | the current store's codec |
| `CodecRoundTrip` | codec_roundtrip.dfy | round-trip and normal-form lemmas about the codec |
| `DbUtils` | dbutils.dfy | the current store's operations |
| `LegacyDbUtils` | legacy_store.dfy | the legacy store's operations |
| `StatusBar` | status_bar.dfy | the footer's figures |

Network calls are not performed. What a Supabase select or a Sheets read
returns is a parameter (`Query`, `Option<seq<string>>`, `Option<Registros>`).
What a save would send is the result: a `Write` or `LegacyWrite` value, or the
new local storage. `None` stands for JavaScript's `null`/`undefined`. An entry
whose id is missing is modelled by the empty id.

## Model

| member | source | states |
|---|---|---|
| `Backend.SelectBackend` | src/dbutils.ts:216-235 | the offline switch wins; Supabase is used iff it is off and both environment values are non-empty (the `HAS_SUPABASE` test at lines 5-7 of the same file, which also decides at lines 16-18 whether a client exists); otherwise the fallback |
| `LocalStorage.ReadLocalDb` | src/dbutils.ts:38-49 | without a window, or with a missing or unreadable value, the database is empty; otherwise it is exactly the stored database |
| `LocalStorage.WriteLocalDb` | src/dbutils.ts:51-54 | after a write inside a browser, reading gives back exactly the written database; without a window nothing is kept |
| `LocalStorage.GetLocalUserData` | src/dbutils.ts:74-77 | a record is returned iff the student is in the database, and it is that student's record |
| `LocalStorage.UpdateLocalUser` | src/dbutils.ts:64-72 | the student's record becomes the updater applied to the stored record, or to the default when there is none; every other student's record is unchanged; the key set gains only the student |
| `LocalStorage.UpdateLocalUserIdempotent` | FIUBA-Map-master/FIUBA-Map-master/src/dbutils.ts:42-50 | applying an update twice stores the same as once, when the updater is idempotent on the record it finds |
| `StateCodec.Approved` | src/dbutils.ts:87-93 | pass 1 keeps exactly the entries with an id and a non-negative grade |
| `StateCodec.Regularized` | src/dbutils.ts:95-101 | pass 2 yields each id marked -1 and not seen before, exactly once |
| `StateCodec.NotApproved` | src/dbutils.ts:103-106 | pass 3 yields exactly the present ids not seen before |
| `StateCodec.BuildStateFromMap` | src/dbutils.ts:79-121 | an id is approved iff some entry approves it; regularised iff some entry marks it -1 and none approves it; not approved iff it is mentioned and neither. The buckets are pairwise disjoint, no regularised id repeats, and every mentioned id lands in some bucket. The language flag is set iff either of its checkbox names is present, and likewise the professional-work flag |
| `StateCodec.FirstUnseen` | src/dbutils.ts:132-142 | the decoder's dedup pass keeps exactly the unseen ids, without repeats |
| `StateCodec.WithNota` | src/dbutils.ts:132-142 | an id list becomes entries carrying the given grade, position by position |
| `StateCodec.CanonicalCheckboxes` | src/dbutils.ts:144-150 | there is no list iff neither flag is set; the list has only current names, each present iff its flag is; the historical "Ingles" is never written |
| `StateCodec.WithNotaContents` | src/dbutils.ts:132-142 | the entries of a tagged list are exactly its ids with that grade, and they do not repeat ids if the list does not |
| `StateCodec.DistinctIdsAppend` | src/dbutils.ts:123-142 | two entry lists without repeated ids and sharing no id concatenate into one without repeated ids |
| `StateCodec.Emitted` | src/dbutils.ts:132-142 | the entries after the approved ones have grade -1 or -3, ids not yet seen, and no repeated id; an id gets -1 iff regularised, -3 iff not approved and not regularised; every -1 entry comes before every -3 entry |
| `StateCodec.BuildMapFromState` | src/dbutils.ts:123-152 | the approved entries come first, unchanged; then each regularised id once with -1, and after all of them each remaining not-approved id once with -3; no id repeats among those; the checkboxes are the canonical list |
| `CodecRoundTrip.ApprovedAppend` | src/dbutils.ts:87-93 | pass 1 distributes over concatenation |
| `CodecRoundTrip.ApprovedKeepsValid` | src/dbutils.ts:87-93 | a list of valid approved entries passes pass 1 unchanged |
| `CodecRoundTrip.ApprovedSkipsNegative` | src/dbutils.ts:87-93 | entries with a negative grade never reach the approved bucket |
| `CodecRoundTrip.RegularizedAppend` | src/dbutils.ts:95-101 | pass 2 over a concatenation is pass 2 over the first part, then over the second with the ids just taken now seen |
| `CodecRoundTrip.RegularizedNone` | src/dbutils.ts:95-101 | entries that are seen or not marked -1 yield no regularised id |
| `CodecRoundTrip.RegularizedTagged` | src/dbutils.ts:95-101 | on entries tagged -1, pass 2 is the decoder's dedup of their ids |
| `CodecRoundTrip.NotApprovedAppend` | src/dbutils.ts:103-106 | pass 3 distributes over concatenation |
| `CodecRoundTrip.NotApprovedNone` | src/dbutils.ts:103-106 | entries whose ids are all seen yield nothing |
| `CodecRoundTrip.NotApprovedTagged` | src/dbutils.ts:103-106 | unseen tagged ids come out of pass 3 exactly as listed |
| `CodecRoundTrip.NotApprovedDistinct` | src/dbutils.ts:103-106 | pass 3 repeats no id when the map repeats none |
| `CodecRoundTrip.FirstUnseenKeeps` | src/dbutils.ts:132-142 | a repeat-free list of unseen ids passes the decoder's dedup unchanged |
| `CodecRoundTrip.FirstUnseenIdempotent` | src/dbutils.ts:132-142 | deduplicating twice is deduplicating once |
| `CodecRoundTrip.EncodeAfterDecodeApproved` | src/dbutils.ts:79-152 | re-encoding a decoded state gives back its approved bucket |
| `CodecRoundTrip.EncodeAfterDecodeRegularized` | src/dbutils.ts:79-152 | re-encoding a decoded state gives back its regularised bucket, deduplicated |
| `CodecRoundTrip.EncodeAfterDecodeNotApproved` | src/dbutils.ts:79-152 | re-encoding a decoded state gives back its not-approved bucket, deduplicated |
| `CodecRoundTrip.EncodeAfterDecode` | src/dbutils.ts:79-152 | encode after decode yields the state's canonical form |
| `CodecRoundTrip.DecodeCanonical` | src/dbutils.ts:123-152 | a state and its canonical form decode to the same map |
| `CodecRoundTrip.DecodeWellFormed` | src/dbutils.ts:123-152 | a well-formed state decodes bucket by bucket with nothing skipped |
| `CodecRoundTrip.EncodeSameEntries` | src/dbutils.ts:108-112 | the encoder reads the checkbox list only for the two flags |
| `CodecRoundTrip.RoundTrip` | src/dbutils.ts:79-152 | a well-formed state (valid approved entries, disjoint buckets, no repeats) is encoded back exactly after decoding |
| `CodecRoundTrip.CanonicalWellFormed` | src/dbutils.ts:123-142 | the canonical form of a state with present ids and valid approved grades is well formed |
| `CodecRoundTrip.Stable` | src/dbutils.ts:79-152 | after one save/load cycle a map no longer changes |
| `CodecRoundTrip.SaveLoadSave` | src/dbutils.ts:79-152 | a second save stores the canonical form of the first, and the first itself when the map repeats no id |
| `CodecRoundTrip.RepeatedNotApprovedCollapses` | src/dbutils.ts:103-106 | a not-approved course listed twice is stored twice but comes back once |
| `CodecRoundTrip.RepeatedStored` | src/dbutils.ts:79-121 | the state stored for a map with one not-approved course listed twice |
| `DbUtils.OfflinePostUser` | src/dbutils.ts:217-223 | a stored state is kept, a missing one becomes the default state; other students are untouched; without a window nothing is stored |
| `DbUtils.OfflinePostGraph` | src/dbutils.ts:244-250 | the stored state becomes the encoded map; other students are untouched |
| `DbUtils.OfflineGetGraphs` | src/dbutils.ts:287-296 | no maps when no state is stored, otherwise exactly one: the single plan with the decoded state |
| `DbUtils.OfflineGetUserLogins` | src/dbutils.ts:157-168 | the single plan's login iff a state is stored, null otherwise |
| `DbUtils.StateOfRow` | src/dbutils.ts:309-317 | each column is read on its own: a null list reads as empty and a null flag as false, and a non-null column reads as its value; a row written from a state reads back as that state |
| `DbUtils.PostUser` | src/dbutils.ts:216-236 | offline it updates local storage; with Supabase it only touches the student's row; otherwise it writes nothing |
| `DbUtils.PostGraph` | src/dbutils.ts:240-281 | offline it stores the encoded map; with Supabase it upserts a row that reads back as the encoded map; otherwise nothing |
| `DbUtils.GetGraphs` | src/dbutils.ts:284-328 | at most one map, always for the single plan; with Supabase it is empty iff the query failed or found no row, otherwise the first row decoded; the fallback gives none |
| `DbUtils.GetUserLogins` | src/dbutils.ts:154-192 | Supabase always answers with the single plan; offline only when a state is stored; the fallback answers null |
| `DbUtils.ReadBack` | src/dbutils.ts:224-272 | `user_state` is upserted on the student number, so a select finds at most one row; after a save it is the saved row; after a registration it is the earlier row, or a new row that reads as the default state; other writes leave the earlier row |
| `DbUtils.SaveThenLoad` | src/dbutils.ts:240-328 | on either backend, saving then loading gives the map's normal form (decode after encode), whatever row the student had before |
| `DbUtils.NoWindowKeepsNothing` | src/dbutils.ts:38-54 | outside a browser, saves are lost and loads find nothing |
| `DbUtils.SaveIsolated` | src/dbutils.ts:64-72 | saving for one student changes no other student's loads |
| `DbUtils.PostUserKeepsProgress` | src/dbutils.ts:217-223 | registering never discards saved progress, and afterwards the student has the single plan's login |
| `DbUtils.RemoteRegisterThenLoad` | src/dbutils.ts:224-232 | registering through Supabase never discards progress: loading then gives the state of the student's earlier row, or one empty map for a new student; the login is the single plan |
| `DbUtils.LanguageExamScenario` | src/dbutils.ts:79-152 | an approved, a regularised and a failed course come back with grades 8, -1 and -3, and the "Ingles" box comes back as "Prueba de suficiencia" |
| `DbUtils.ScenarioDecode` | src/dbutils.ts:123-152 | the concrete state of that example decodes to the expected map |
| `LegacyDbUtils.WithoutKey` | FIUBA-Map-master/FIUBA-Map-master/src/dbutils.ts:140-142 | the filter keeps exactly the entries with another key, and drops nothing when no entry has the key |
| `LegacyDbUtils.WithoutKeyAppend` | FIUBA-Map-master/FIUBA-Map-master/src/dbutils.ts:140-142 | the filter distributes over concatenation |
| `LegacyDbUtils.WithoutKeyUnique` | FIUBA-Map-master/FIUBA-Map-master/src/dbutils.ts:140-142 | filtering keeps keys unique |
| `LegacyDbUtils.Upsert` | FIUBA-Map-master/FIUBA-Map-master/src/dbutils.ts:140-147 | the new entry is last and is the only one with its key; every entry with another key survives; nothing else is added |
| `LegacyDbUtils.UpsertIdempotent` | FIUBA-Map-master/FIUBA-Map-master/src/dbutils.ts:140-147 | upserting the same entry twice equals upserting it once |
| `LegacyDbUtils.UpsertKeepsUniqueKeys` | FIUBA-Map-master/FIUBA-Map-master/src/dbutils.ts:140-147 | an upsert keeps at most one entry per key |
| `LegacyDbUtils.OfflinePostUser` | FIUBA-Map-master/FIUBA-Map-master/src/dbutils.ts:138-154 | the logins become the keyed upsert of the user's login: the other plans' logins in their old order, then the new login last, the only one for its plan; all maps are kept; other students are untouched |
| `LegacyDbUtils.OfflinePostGraph` | FIUBA-Map-master/FIUBA-Map-master/src/dbutils.ts:191-206 | the maps become the keyed upsert of the new map: the other plans' maps in their old order, then the new map last, the only one for its plan; all logins are kept; other students are untouched |
| `LegacyDbUtils.OfflineGetUserLogins` | FIUBA-Map-master/FIUBA-Map-master/src/dbutils.ts:58-61 | null iff the student has no record, otherwise the record's logins, possibly none |
| `LegacyDbUtils.OfflineGetGraphs` | FIUBA-Map-master/FIUBA-Map-master/src/dbutils.ts:233-236 | the record's maps, empty for an unknown student |
| `LegacyDbUtils.OfflinePostUserIdempotent` | FIUBA-Map-master/FIUBA-Map-master/src/dbutils.ts:138-154 | logging into the same plan twice stores the same as once |
| `LegacyDbUtils.OfflinePostGraphIdempotent` | FIUBA-Map-master/FIUBA-Map-master/src/dbutils.ts:191-206 | saving the same map twice stores the same as once |
| `LegacyDbUtils.OfflinePostUserKeepsOnePerPlan` | FIUBA-Map-master/FIUBA-Map-master/src/dbutils.ts:138-154 | offline logins keep one login per plan |
| `LegacyDbUtils.OfflinePostGraphKeepsOnePerPlan` | FIUBA-Map-master/FIUBA-Map-master/src/dbutils.ts:191-206 | offline saves keep one map per plan |
| `LegacyDbUtils.OfflineSaveThenLoad` | FIUBA-Map-master/FIUBA-Map-master/src/dbutils.ts:191-236 | after a save, loading finds the map under its plan, and only in the last position, even when the record held several maps of that plan before |
| `LegacyDbUtils.OrAbsent` | FIUBA-Map-master/FIUBA-Map-master/src/dbutils.ts:73-74 | a name is kept iff it is present and non-empty (`or null` on write, `or undefined` on read) |
| `LegacyDbUtils.LoginRowOf` | FIUBA-Map-master/FIUBA-Map-master/src/dbutils.ts:156-166 | the upserted row carries the student and the plan; a name column is non-null iff the name is present and non-empty, and then holds that name |
| `LegacyDbUtils.LoginOfRow` | FIUBA-Map-master/FIUBA-Map-master/src/dbutils.ts:71-75 | a row reads as a login with the same plan; a name is kept exactly when the column holds a non-empty value, and then it is that value |
| `LegacyDbUtils.RemoteGetUserLogins` | FIUBA-Map-master/FIUBA-Map-master/src/dbutils.ts:63-76 | null iff the query failed or found no row, otherwise one login per row, in order |
| `LegacyDbUtils.RemoteGetGraphs` | FIUBA-Map-master/FIUBA-Map-master/src/dbutils.ts:238-253 | no maps on an error, otherwise one map per row, in order |
| `LegacyDbUtils.SelectStudent` | FIUBA-Map-master/FIUBA-Map-master/src/dbutils.ts:239-242 | the select on the student number keeps exactly the student's rows |
| `LegacyDbUtils.RemoteLoginRoundTrip` | FIUBA-Map-master/FIUBA-Map-master/src/dbutils.ts:57-76 | a login saved through Supabase is read back, with empty names as absent |
| `LegacyDbUtils.RemoteLoginExact` | FIUBA-Map-master/FIUBA-Map-master/src/dbutils.ts:156-166 | with non-empty names the Supabase login round trip is exact |
| `LegacyDbUtils.RemoteMapRoundTrip` | FIUBA-Map-master/FIUBA-Map-master/src/dbutils.ts:208-253 | a map saved through Supabase is read back under its plan, and no other map of that plan survives |
| `LegacyDbUtils.IndexOf` | FIUBA-Map-master/FIUBA-Map-master/src/dbutils.ts:90 | the first position at or after the start that holds the value, or -1 iff there is none |
| `LegacyDbUtils.Occurrences` | FIUBA-Map-master/FIUBA-Map-master/src/dbutils.ts:88-92 | the collected positions are strictly increasing and each holds the student number |
| `LegacyDbUtils.OccurrencesComplete` | FIUBA-Map-master/FIUBA-Map-master/src/dbutils.ts:88-92 | no position holding the student number is missed |
| `LegacyDbUtils.ScanStep` | FIUBA-Map-master/FIUBA-Map-master/src/dbutils.ts:90-91 | one turn of the loop moves the found position from pending to collected |
| `LegacyDbUtils.ScanIndexes` | FIUBA-Map-master/FIUBA-Map-master/src/dbutils.ts:88-92 | the loop stops and yields exactly the student's positions, in strictly increasing order |
| `LegacyDbUtils.OccurrencesEmpty` | FIUBA-Map-master/FIUBA-Map-master/src/dbutils.ts:94 | the scan finds nothing iff the student is not in the column |
| `LegacyDbUtils.RangesOf` | FIUBA-Map-master/FIUBA-Map-master/src/dbutils.ts:96-98 | each index becomes the one-row range of row index + 1 |
| `LegacyDbUtils.RangesCoverRows` | FIUBA-Map-master/FIUBA-Map-master/src/dbutils.ts:88-98 | every row of the student is among the fetched ranges |
| `LegacyDbUtils.SheetUserRanges` | FIUBA-Map-master/FIUBA-Map-master/src/dbutils.ts:78-98 | null iff the column could not be read or does not hold the student; otherwise 1-based one-row ranges, strictly increasing, each on a row of the student, covering all of them |
| `LegacyDbUtils.Cell` | FIUBA-Map-master/FIUBA-Map-master/src/dbutils.ts:273-274 | a cell is defined iff the row is inside the column, and is that row's value |
| `LegacyDbUtils.EntriesCoverRows` | FIUBA-Map-master/FIUBA-Map-master/src/dbutils.ts:264-276 | entries taken at the scanned positions include the entry of every row of the student |
| `LegacyDbUtils.ZipEntries` | FIUBA-Map-master/FIUBA-Map-master/src/dbutils.ts:270-276 | the loop pairs each index with that row's plan and map cells, in order |
| `LegacyDbUtils.SheetGraphs` | FIUBA-Map-master/FIUBA-Map-master/src/dbutils.ts:254-276 | undefined iff the sheet could not be read; otherwise one entry per row of the student, in row order, covering all of them; empty iff the student has no row |
| `LegacyDbUtils.PostUser` | FIUBA-Map-master/FIUBA-Map-master/src/dbutils.ts:137-183 | per backend: the local upsert, the Supabase row, or the form; the form sends an absent name as "" and a present one as given |
| `LegacyDbUtils.PostGraph` | FIUBA-Map-master/FIUBA-Map-master/src/dbutils.ts:187-229 | per backend: the local upsert, the Supabase row keyed on (student, plan), or the form with student, plan and map |
| `LegacyDbUtils.FormAgreesWithRow` | FIUBA-Map-master/FIUBA-Map-master/src/dbutils.ts:156-177 | the form sends "" exactly where the Supabase row holds null, and the same name elsewhere |
| `LegacyDbUtils.GetUserLogins` | FIUBA-Map-master/FIUBA-Map-master/src/dbutils.ts:57-113 | offline and Supabase answers as above; on Sheets null iff the column is unreadable or lacks the student, otherwise it goes on to fetch: the student's rows, 1-based, every one of them, in increasing order |
| `LegacyDbUtils.GetGraphs` | FIUBA-Map-master/FIUBA-Map-master/src/dbutils.ts:232-282 | offline and Supabase give maps; on Sheets undefined iff the sheet is unreadable, otherwise one entry per row of the student, in row order, each pairing that row's plan and map cells; empty iff there is none |
| `StatusBar.Materias` | src/components/Footer/StatusBar.tsx:16-33 | keeps exactly the nodes outside CBC, CPU, "Fin de Carrera" and "Fin de Carrera (Obligatorio)", and drops nothing when there is none of those |
| `StatusBar.MateriasIdempotent` | src/components/Footer/StatusBar.tsx:27-33 | filtering twice is filtering once |
| `StatusBar.MateriasAppend` | src/components/Footer/StatusBar.tsx:27-33 | the filter distributes over concatenation |
| `StatusBar.NonMateriasVanish` | src/components/Footer/StatusBar.tsx:16-33 | nodes of the excluded categories leave nothing |
| `StatusBar.MateriasAprobadas` | src/components/Footer/StatusBar.tsx:35-38 | the count is at most the number of courses; 0 iff no course is approved with a grade >= 0; all iff every one is |
| `StatusBar.MateriasAprobadasAppend` | src/components/Footer/StatusBar.tsx:35-38 | the count adds up over concatenation |
| `StatusBar.StatusCounts` | src/components/Footer/StatusBar.tsx:27-38 | "x de y" never shows x > y, and excluded nodes change neither number |
| `StatusBar.ObligatoriasPercent` | src/components/Footer/StatusBar.tsx:50-53 | 0 when there are no mandatory courses; otherwise the integer nearest to 100·a/t, with halves rounded up |
| `StatusBar.PercentUnique` | src/components/Footer/StatusBar.tsx:50-53 | that rounding condition has exactly one solution |
| `StatusBar.PercentAtMost100` | src/components/Footer/StatusBar.tsx:50-53 | with a <= t the percentage is at most 100 |
| `StatusBar.PercentEnds` | src/components/Footer/StatusBar.tsx:50-53 | all approved gives 100 and none gives 0 |
| `StatusBar.PercentMonotone` | src/components/Footer/StatusBar.tsx:50-53 | approving more never lowers the percentage |
| `StatusBar.CheckboxProgress` | src/components/Footer/StatusBar.tsx:126 | the bar is 100 iff the box is ticked, and 0 iff it is not |

## Left out

- Network I/O (Supabase, Google Sheets, Google Forms) is not modelled. Query results are parameters and writes are returned values.
- Supabase upsert semantics are an assumption of the model. The legacy `user_logins` and `user_maps` tables are sequences upserted on (student, plan) with the same keyed upsert as the offline store, and a select is a filter on the student number. The current `user_state` table is not modelled as a whole: `DbUtils.ReadBack` assumes each student has at most one row (the upsert is on the student number), that a select returns that row, and that an upsert writing only some columns keeps the others of an existing row and leaves them null in a new one.
- JSON parsing and serialisation are not modelled. This covers the local-storage text, `JSON.stringify(map)` in the legacy graph form, and `JSON.parse` of sheet cells and of Supabase `map` columns. Sheet maps stay as their JSON text.
- The legacy Sheets `getUserLogins` stops at the ranges it would batch-fetch. Decoding the `batchGet` answer (columns 2 to 4 of each row) is network data.
- `updated_at` timestamps, `console.log` output and the error logging in `postGraph` are not modelled.
- `submitBug`, `promediar`, the React components and the plan catalogue are not modelled. Only the plan id "biomedica-2022" is used, as a constant.
- `UserType.PlanMap` holds only `materias` (entries of `id` and `nota`) and `checkboxes`, which is all the current codec reads and writes back. Any other field of a map or of an entry is dropped by every save to the current store, offline or Supabase. Such fields, `optativas` and `aplazos` for instance, are not modelled, so the round-trip lemmas do not show that loss.
- The legacy plan map payload is also modelled by `PlanMap`. The legacy store passes a map through whole, with its extra fields (`optativas`, `aplazos`). The model shows only the fields `PlanMap` holds.
- `StatusBar.ObligatoriasPercent`: does not model floating point. `Math.round(a / t * 100)` is modelled in exact arithmetic, so at a float tie the two can differ (29/200·100 is 14.499999999999998 in IEEE doubles, so the app shows 14 where the exact value rounds to 15).
- `StatusBar.ObligatoriasPercent`: takes the mandatory totals as numbers. The graph queries `CategoriaOnly` and `ObligatoriasAprobadas` are not part of this model.
- `StatusBar.MateriasAprobadas`: grades are integers; fractional grades are not modelled.
- Entries that are `null` or lack an id are modelled by the empty id. An `undefined` `allLogins`/`maps` field of a legacy record is not modelled, so the legacy `local?.allLogins || null` always yields the stored list.
- Saving, loading and saving again does not always store the first save. It fails when a not-approved id is repeated in a map: pass 3 of `buildStateFromMap` does not add ids to `seen`, so the state keeps both copies, while `buildMapFromState` deduplicates them. The model follows the code: `CodecRoundTrip.SaveLoadSave` proves the property for maps without repeated ids, and `CodecRoundTrip.RepeatedNotApprovedCollapses` shows the repeated case.
