# actionResolvers: the generated resolvers aggregator

`actionResolvers` (package `module-codegen`) lists the files of a module's
`resolvers` folder and writes `resolvers.ts`, a barrel file that imports the
`resolvers` export of each file under a derived identifier and re-exports them
all as one array:

```
import { resolvers as <id_1> } from '../resolvers/<path_1>';
...
import { resolvers as <id_n> } from '../resolvers/<path_n>';

export const resolvers = [
  <id_1>,
  ...
  <id_n>,
];
```

It returns the number of files listed.

This project models the in-memory part of that operation: how the
`dataResolvers` line list is built from the listing, and the returned count.
The file listing is an input, and the line list is returned instead of written.

- `ActionResolvers.BuildResolvers` is the imperative builder. It appends to a
  local sequence in two loops, mirroring the two `forEach` passes, plus the
  fixed pushes. It is proved equal to the specification function `Aggregator`.
- `Aggregator` is defined as `Imports ++ ["", "export const resolvers = ["] ++
  Elements ++ ["];"]`.
- The lemmas state the layout of the file, the agreement between import *i*
  and array element *i*, the line counts, and that order and duplicates are
  kept.
- The filename helpers `getFileWODots` (identifier) and `getFileWOTS` (import
  path) live in `fileFolder.ts`, which is not part of this model. The members
  that need them take them as function parameters `ident` and `path`
  (`Elements` and its lemmas take only `ident`; the line templates and the
  line readers take neither). Nothing is assumed about what the helpers
  compute, only that they are pure, total functions.

## Model

| member | source | states |
|---|---|---|
| ActionResolvers.BuildResolvers | packages/module-codegen/src/actionResolvers.ts:9-26 | The lines built by the two loops and the fixed pushes are exactly `Aggregator(files)`. The returned count is the number of files, and it equals both the number of import lines and the number of array-element lines in the result. |
| ActionResolvers.Aggregator | packages/module-codegen/src/actionResolvers.ts:9-20 | The generated file has 2·n + 3 lines for n listed files. |
| ActionResolvers.Imports | packages/module-codegen/src/actionResolvers.ts:10-14 | The first loop emits exactly one import line per listed file. |
| ActionResolvers.Elements | packages/module-codegen/src/actionResolvers.ts:17-19 | The second loop emits exactly one array-element line per listed file. |
| ActionResolvers.ImportsStep | packages/module-codegen/src/actionResolvers.ts:10-14 | One pass of the first loop appends the next file's import line to the imports of the files already visited. |
| ActionResolvers.ElementsStep | packages/module-codegen/src/actionResolvers.ts:17-19 | One pass of the second loop appends the next file's element line to the elements of the files already visited. |
| ActionResolvers.ImportsAt | packages/module-codegen/src/actionResolvers.ts:10-14 | Import line i is the line-12 template (`ImportLine`) filled in for file i: it binds `ident(files[i])` and imports from `../resolvers/` + `path(files[i])`. Imports follow listing order. |
| ActionResolvers.ElementsAt | packages/module-codegen/src/actionResolvers.ts:17-19 | Array-element line i is the line-18 template (`ElementLine`) filled in for file i: two spaces, `ident(files[i])` and a comma. Elements follow listing order. |
| ActionResolvers.AggregatorLayout | packages/module-codegen/src/actionResolvers.ts:9-20 | Lines 0..n-1 are the imports in listing order. Line n is empty and line n+1 is `export const resolvers = [`. Lines n+2..2n+1 are the elements in listing order. Line 2n+2 is `];`. |
| ActionResolvers.EmptyListing | packages/module-codegen/src/actionResolvers.ts:9-20 | An empty listing yields exactly `""`, `export const resolvers = [`, `];`. |
| ActionResolvers.NoRenamingDrift | packages/module-codegen/src/actionResolvers.ts:10-19 | Array element i lists `ident(files[i])`. Import line i binds that same identifier, i.e. it starts with `import { resolvers as ` + that identifier + ` } from '../resolvers/`. |
| ActionResolvers.ImportsAppend | packages/module-codegen/src/actionResolvers.ts:10-14 | Imports of a concatenated listing are the imports of each part, concatenated. Nothing is reordered, merged or dropped. |
| ActionResolvers.ElementsAppend | packages/module-codegen/src/actionResolvers.ts:17-19 | Array elements of a concatenated listing are the elements of each part, concatenated. |
| ActionResolvers.DuplicatesKept | packages/module-codegen/src/actionResolvers.ts:10-19 | Two equal entries in the listing both produce their own, equal, import line and array-element line. No deduplication is done. The equal lines follow from the equal entries; that both copies are kept at their own positions comes from the positions in `AggregatorLayout` and the 2·n + 3 length. |
| ActionResolvers.LineCounts | packages/module-codegen/src/actionResolvers.ts:9-20 | The file holds exactly n lines that start with `import ` and exactly n array-element lines. |
| ActionResolvers.ElementIdent | packages/module-codegen/src/actionResolvers.ts:18 | Reading an element line back: it succeeds exactly on lines of the form two spaces, text, comma, and the identifier it returns regenerates the line. |
| ActionResolvers.ElementLineRoundTrip | packages/module-codegen/src/actionResolvers.ts:18 | Reading back an emitted element line gives the identifier it was built from. |
| ActionResolvers.ImportLineKind | packages/module-codegen/src/actionResolvers.ts:12 | An emitted import line starts with `import ` and is never read as an array element. |
| ActionResolvers.ElementLineKind | packages/module-codegen/src/actionResolvers.ts:18 | An emitted array-element line reads as one and never starts with `import `. |

## Left out

- Listing the resolvers folder (`getFiles`) is not modelled. Its order is platform-defined, so the listing is a parameter.
- Creating the output folder (`createFolderIfNotExists`) and writing `resolvers.ts` (`write`) are not modelled. They are filesystem I/O, so the model returns the lines instead. How the writer joins lines is not part of this model.
- `path.join` and the fixed names `resolvers` and `resolvers.ts` are left out. They only build filesystem paths.
- The bodies of `getFileWODots` and `getFileWOTS` are in `fileFolder.ts`, which is not part of this model. They are arbitrary function parameters, so nothing is claimed about the identifiers beyond where they appear.
- The two helpers are modelled as pure, total functions. So the two `getFileWODots` calls per file (lines 12 and 18) are assumed to return the same identifier, which `NoRenamingDrift` relies on. Exceptions thrown by either helper are not modelled.
- Identifier uniqueness is not claimed. The generator does not detect colliding identifiers.
- Idempotence of re-running the generator holds trivially, because the model is a function of its inputs. No separate lemma states it.
