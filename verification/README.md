# Goxel mesh export: the record pool, the grouping sort and the two writers

This project models the core of Goxel's `src/wavefront.c` in Dafny and proves its index bookkeeping correct.

In that file, `wavefront_export` and `ply_export` walk every block of a voxel mesh. For each quad the mesher produced, they add four vertex records, four normal records and one face record to a shared pool. The face record holds the 1-based ordinals that `lines_add` returned for its corners. The pool is then sorted with `line_cmp`, so that vertices come first, then normals, then faces. Finally it is written out:

- as Wavefront OBJ: a comment line, then `v`, `vn` and `f a//b …` statements;
- as ASCII PLY: a 13-line header declaring the vertex and face counts, then one line per vertex (with colour) and one line per face, whose indices are 0-based.

The model has six modules:

- `Records` (records.dfy) is the `line_t` union as a sum type. It also holds `line_cmp_score` and `line_cmp`.
- `Buckets` (buckets.dfy) is the specification the pool is proved against:
  - `Bucket(s, t)` is the records of tag `t` in insertion order.
  - `Lookup` is what `lines_find` computes.
  - `Insert` is what `lines_add` does to the array.
  - `Grouped` is the stable grouping.
  - `QsortOutcome` is what `utarray_sort` actually promises.
- `RecordPool` (pool.dfy) is the `UT_array` of records as a class, whose methods `Find`, `Add`, `Count` and `Group` work in place.
- `Export` (export.dfy) is the block/quad/corner loops that fill the pool. Both exporters share it, with a `Style` saying whether vertex records carry colour.
- `Wavefront` (obj.dfy) is the OBJ writer and the whole of `wavefront_export`.
- `Ply` (ply.dfy) is the PLY writer and the whole of `ply_export`.

Output files are sequences of abstract lines (`ObjLine`, `PlyLine`) that hold the values printed, not their text.

What the end-to-end contracts state:

- Every quad of the input is drawn by a face statement. Read the way each format reads indices, that statement names the quad's corner positions (and, for OBJ, its normals; for PLY, its colours).
- Every statement written comes from some corner or quad of the input.
- OBJ statements come in the order comment, `v`, `vn`, `f`, and no statement of a kind is written twice.
- The PLY header declares exactly as many vertex and face lines as follow it.
- A mesh without quads gives the comment line alone (OBJ), or a header declaring 0 vertices and 0 faces with no data lines (PLY).

`ply_export` adds the normal records and fills `vns` exactly as `wavefront_export` does (`src/wavefront.c:186-193`), and the model does the same. As a result, two PLY faces with the same corners but different normals are two records and two face lines.

## Model

| member | source | states |
|---|---|---|
| Records.Score | src/wavefront.c:72-79 | 0 for a vertex record, 1 for a normal record, 2 for a face record, and nothing else |
| Records.Cmp | src/wavefront.c:81-86 | the sign of the score difference: -1, 0 or 1; negative exactly when a scores lower; 0 exactly when both have the same type field |
| Records.CmpIsCategoryOrder | src/wavefront.c:72-86 | line_cmp is antisymmetric and transitive, ties exactly on equal tags, and puts "v " before "vn" before "f " |
| Buckets.Bucket | src/wavefront.c:61-70 | the records of one tag, in insertion order, are never more than the whole pool |
| Buckets.BucketMembers | src/wavefront.c:42-45 | a record is in the bucket of t exactly when it is in the pool and its type field is t |
| Buckets.Lookup | src/wavefront.c:38-50 | 0 exactly when no equal record is present; otherwise r is within the tag's count, the r-th record of that tag equals x, and no earlier record of that tag does |
| Buckets.Insert | src/wavefront.c:52-59 | the pool grows by one record exactly when line was absent; the old pool is kept as a prefix and line is present afterwards |
| Buckets.InsertLookup | src/wavefront.c:52-59 | lines_add returns the old ordinal of a present record, or the old tag count plus one; the result lies in [1, count]; adding the same record twice changes nothing more |
| Buckets.InsertBuckets | src/wavefront.c:52-59 | adding a record leaves every other tag's records as they were, and only extends its own tag's records at the end |
| Buckets.InsertKeepsLookup | src/wavefront.c:52-59 | an ordinal, once assigned, is kept by every later lines_add |
| Buckets.LookupDistinct | src/wavefront.c:44-47 | two different records of one tag never share an ordinal |
| Buckets.InsertNoDup | src/wavefront.c:52-59 | a pool without duplicates stays without duplicates |
| Buckets.BucketNoDup | src/wavefront.c:52-59 | the records of one tag of a duplicate-free pool are duplicate-free |
| Buckets.Grouped | src/wavefront.c:133 | the grouped pool holds exactly the records of the pool |
| Buckets.GroupedStable | src/wavefront.c:133 | the grouped pool has, tag by tag, exactly the records of the pool in insertion order |
| Buckets.GroupedKeepsLookup | src/wavefront.c:133 | every ordinal handed out while filling names the same record after grouping |
| Buckets.GroupedAt | src/wavefront.c:133 | position i of the grouped pool is in the vertex, normal or face section according to the tag counts |
| Buckets.GroupedSorted | src/wavefront.c:133 | the grouped pool is ordered by line_cmp |
| Buckets.GroupedPermutation | src/wavefront.c:133 | grouping is a permutation of the pool and keeps it duplicate-free |
| Buckets.QsortOutcome | src/wavefront.c:133 | an outcome utarray_sort may produce is a permutation ordered by line_cmp, so it has as many records as the pool |
| Buckets.SortedIsGrouped | src/wavefront.c:133 | a pool already ordered by line_cmp is its own grouping |
| Buckets.StableOutcomeIsGrouped | src/wavefront.c:133 | of all outcomes utarray_sort may produce, the one keeping each tag's order is exactly the grouping |
| Buckets.GroupedIsQsortOutcome | src/wavefront.c:133 | the grouping is an outcome utarray_sort may produce |
| Buckets.SwapIsQsortOutcome | src/wavefront.c:133 | swapping two vertices that precede a face is also an outcome utarray_sort may produce |
| Buckets.UnstableOutcomeMisresolves | src/wavefront.c:133 | for the pool [a, b, f], qsort may return [b, a, f], after which vertex ordinal 1, handed to a, names b |
| Buckets.SwapFrontSorted | src/wavefront.c:133 | exchanging the first two records of a sequence ordered by line_cmp, when they have the same type field, keeps it ordered and a permutation |
| Buckets.SwapGroupedIsQsortOutcome | src/wavefront.c:133 | the grouping with its first two vertex records exchanged is an outcome utarray_sort may produce |
| Buckets.FirstOrdinal | src/wavefront.c:42-47 | the first record of a tag gets ordinal 1 |
| Buckets.SwappedBucket | src/wavefront.c:133 | in that outcome, the vertex records are the pool's with the first two exchanged |
| Buckets.UnstableGroupingMisresolves | src/wavefront.c:133 | on any pool whose first two vertex records differ, qsort may return an outcome in which ordinal 1, handed to the first, names the second |
| Buckets.PoolMisresolves | src/wavefront.c:133 | the same for a pool that starts with two different vertex records |
| RecordPool.Pool.constructor | src/wavefront.c:103 | the new pool is empty |
| RecordPool.Pool.Find | src/wavefront.c:38-50 | returns Lookup: 0 exactly when no equal record is present, otherwise the 1-based ordinal of the first equal record among those of its tag |
| RecordPool.Pool.Add | src/wavefront.c:52-59 | a present record leaves the pool unchanged and returns its ordinal; a new one is appended at the end and gets the old tag count plus one; the result is in [1, count]; other tags' records are unchanged; no duplicates arise |
| RecordPool.Pool.Count | src/wavefront.c:61-70 | returns the number of records of the tag |
| RecordPool.Pool.Group | src/wavefront.c:133 | the pool becomes the stable grouping: ordered by line_cmp, a permutation, each tag's records in their old order, still duplicate-free |
| RecordPool.FoundAt | src/wavefront.c:42-47 | when the scan meets the first equal record at position i, its count so far plus one is the ordinal |
| Export.VertexRec | src/wavefront.c:115-119 | the vertex record of corner j is a "v " record at the world position of that corner; without colour (OBJ) its colour field stays zero |
| Export.NormalRec | src/wavefront.c:124-127 | the normal record of corner j is a "vn" record holding that corner's normal |
| Export.Ordinals | src/wavefront.c:120 | the k-th entry is the ordinal lines_find gives the k-th corner record |
| Export.ResolvedFace | src/wavefront.c:120-130 | the face built from the ordinals lines_add returned is the face record of the quad computed from the pool |
| Export.RecordsNeedQuads | src/wavefront.c:106-131 | a pool filled from blocks without quads is empty |
| Export.PutCorners | src/wavefront.c:114-121 | the four corner records are added in turn, and each returned ordinal names its record in the resulting pool |
| Export.VerticesRefer | src/wavefront.c:114-121 | the four vertex ordinals name, in the vertex bucket, the world positions (and colours, for PLY) of the quad's corners |
| Export.NormalsRefer | src/wavefront.c:123-129 | the four normal ordinals name, in the normal bucket, the normals of the quad's corners |
| Export.FillingInsert | src/wavefront.c:120-130 | adding a record that comes from the input keeps every record accounted for and every face drawn so far still naming its corners |
| Export.PutQuad | src/wavefront.c:112-131 | after the body of the quad loop, the pool is the old pool with the four vertex records, then the four normal records, then the face record added in turn; the quad is drawn by a face record naming its corner records, and everything drawn before still is |
| Export.FillQuadsStep | src/wavefront.c:112 | the quad loop over the first i + 1 quads is one more quad step after the loop over the first i |
| Export.PutBlock | src/wavefront.c:112-131 | after the quad loop of one block, the pool is the quad steps of all its quads applied in order; every quad of the block is drawn and everything drawn before still is |
| Export.FillSeqStep | src/wavefront.c:106 | the block loop over the first i + 1 blocks is the quad loop of block i after the loop over the first i |
| Export.Fill | src/wavefront.c:103-132 | after the block and quad loops, the pool is exactly the records added block by block, quad by quad, corner by corner; every record comes from the input and every quad is drawn by a face record naming its corners |
| Export.InsertAllPrefix | src/wavefront.c:52-59 | further lines_add calls keep the pool as a prefix |
| Export.FirstQuadVertices | src/wavefront.c:112-121 | the first quad added to an empty pool puts its first two vertex records first, when they differ |
| Export.FillOneQuad | src/wavefront.c:106-131 | for one block with one quad, the loops do the quad loop body once |
| Export.OneQuadMisresolves | src/wavefront.c:106-133 | for the pool built from one block with one quad whose first two corners differ, qsort may return an outcome in which the ordinal the face holds for corner 0 names the record of corner 1 |
| Wavefront.ObjLineOf | src/wavefront.c:138-147 | a record prints the statement of its own type field: v, vn or f, ranked as line_cmp ranks the record |
| Wavefront.ObjBody | src/wavefront.c:137-148 | one statement per record |
| Wavefront.ObjBodyAt | src/wavefront.c:137-147 | the i-th statement written is the one for the i-th record |
| Wavefront.StatementsOfBody | src/wavefront.c:137-147 | the statements of one kind written for a pool are those written for that kind's records alone |
| Wavefront.WriteObj | src/wavefront.c:134-148 | the comment line, then one statement per record in pool order |
| Wavefront.ObjStatements | src/wavefront.c:133-148 | after grouping, the k-th statement of a kind in the file is the one for the k-th record of that kind in insertion order |
| Wavefront.ObjLayoutOf | src/wavefront.c:133-148 | writing a pool ordered by line_cmp gives the comment, then v, then vn, then f statements |
| Wavefront.RefersNames | src/wavefront.c:143-147 | a face whose ordinals name a quad's records, once written, names the quad's corner positions and normals the OBJ way |
| Wavefront.Written | src/wavefront.c:137-147 | every record of the pool is written, wherever grouping put it |
| Wavefront.ObjCoversOf | src/wavefront.c:106-148 | every quad of the input has an f statement naming its corners |
| Wavefront.ObjSoundOf | src/wavefront.c:106-148 | every statement written comes from a corner or quad of the input |
| Wavefront.SameStatement | src/wavefront.c:137-147 | two uncoloured records that print the same statement are the same record |
| Wavefront.ObjDistinct | src/wavefront.c:119-120 | no statement of a kind is written twice |
| Wavefront.WavefrontExport | src/wavefront.c:88-151 | the file is the comment, then the statements of the grouped pool filled from the blocks; it is laid out comment, v, vn, f; covers every quad; accounts for every line; repeats no statement; is the comment alone for a mesh without quads |
| Ply.PlyHeader | src/wavefront.c:199-211 | 13 header lines, the 4th declaring the vertex count and the 11th the face count |
| Ply.ZeroBased | src/wavefront.c:219-222 | each written index is the face's 1-based vertex ordinal minus one |
| Ply.PlyLinesOf | src/wavefront.c:213-223 | a vertex or face record writes one line, a normal record none |
| Ply.PlyBody | src/wavefront.c:212-223 | never more data lines than records |
| Ply.PlyOneEach | src/wavefront.c:213-223 | vertex and face records write one line each, in order |
| Ply.PlyNormals | src/wavefront.c:213-223 | normal records write nothing |
| Ply.WritePly | src/wavefront.c:198-223 | the header with lines_count of "v " and "f ", then the data lines of the records in pool order |
| Ply.PlyBodyGrouped | src/wavefront.c:197-223 | written from the grouped pool, the data lines are the vertex lines, then the face lines, each in insertion order |
| Ply.VertexLineAt | src/wavefront.c:214-217 | the line of the k-th vertex record is the k-th line after the header |
| Ply.FaceLineAt | src/wavefront.c:218-222 | the line of the k-th face record follows all the vertex lines |
| Ply.BodyKinds | src/wavefront.c:213-223 | written from vertex records then face records, the data lines are that many vertex lines followed by that many face lines |
| Ply.LayoutOf | src/wavefront.c:199-223 | a header declaring the vertex and face records, then their lines, is a consistent PLY file |
| Ply.PlyShape | src/wavefront.c:197-223 | the file written from the grouped pool declares exactly the vertex and face lines that follow, each record's line in its place |
| Ply.VerticesWritten | src/wavefront.c:219-222 | a face whose ordinals name a quad's vertex records names, through its 0-based indices, the positions and colours of the quad's corners |
| Ply.PlyCoversOf | src/wavefront.c:169-223 | every quad of the input has a face line naming its corners |
| Ply.PlySoundOf | src/wavefront.c:169-223 | every data line comes from a corner or quad of the input |
| Ply.PlyVertexDistinct | src/wavefront.c:183-184 | in a file written from a duplicate-free pool, no two vertex lines are equal |
| Ply.PlyExport | src/wavefront.c:153-226 | the file is the header declaring the grouped pool's vertex and face counts, then its data lines; the header declares exactly the data lines that follow; every quad is drawn; every line is accounted for; no vertex line is written twice; a mesh without quads gives a header declaring 0 and 0 and nothing else |

## Left out

- File output is not modelled: `fopen`, `fprintf`, `fclose`, the unchecked NULL `out` and the version string in the comment. Each writer returns its sequence of lines instead.
- `%g` and `%d` text formatting is not modelled. Numbers are kept as the values printed, and floats as their 32-bit patterns.
- The block transform (`mat4_itranslate`, `mat4_mul_vec3` and the `-N/2 + 0.5` centring) is a parameter `world` of the exporters, because it is float arithmetic through a matrix library that is not part of this model.
- `block_generate_vertices` is not part of this model. Each block comes with the quads it produced. The bound of its output by the `N*N*N*6*4` scratch buffer (`calloc`) is therefore not modelled, and neither are the calloc failure or the leaked buffer.
- `utarray` and `DL_FOREACH` internals are not modelled; the pool and the block list are sequences.
- `memcmp` over the whole `line_t` is modelled as equality of the variant. This assumes the padding and unused union bytes are equal, which the zero-filling compound literals make so in practice.
- `int` overflow of the ordinals and counts is not modelled; they are unbounded integers.
- `line_cmp_score`'s `assert(false)` fallback is not modelled, because every record of the pool carries one of the three type fields and `Score` is total.
- Reusing one `face` variable across quads is modelled as a fresh face record per quad. Each quad overwrites all eight of its indices, so the two are the same.
- RecordPool.Pool.Group: implements the sort at `src/wavefront.c:133` and `197` as the stable grouping the export needs, not as the in-place qsort. What qsort may do instead is stated by `Buckets.QsortOutcome` and discussed under Findings.

## Findings

| source | as written | input that shows it | evidently intended | confidence | as-written member | corrected member |
|---|---|---|---|---|---|---|
| src/wavefront.c:133 | `utarray_sort(lines, line_cmp)` is qsort with a comparator that ties all records of one tag, and qsort is not stable; so it may permute the records of a tag after their ordinals were stored in face records | one block with one quad whose first two corners lie at different positions: the pool starts with their vertex records a, b; the grouping with a and b exchanged is ordered by line_cmp and a permutation, so qsort may return it, and the face's vertex index 1 (meaning a) then names b | group by tag keeping insertion order within each tag, so every stored ordinal still names its record | not executed; depends on the C library's qsort | Export.OneQuadMisresolves | Buckets.GroupedKeepsLookup |
