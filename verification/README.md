# Blog content schema and search index, modelled in Dafny

The site is a static blog. Two parts of it carry logic:

- **The `blog` collection schema** (`src/content.config.ts`). Each markdown file's front matter is validated and normalised into typed post data. `title`, `description` and `pubDate` are required. `updatedDate`, `image` and `readingTime` are optional. `author`, `draft` and `tags` default to `'Daniel Dieppa'`, `false` and `[]`.
- **The search-index endpoint** (`src/pages/api/search.json.ts`). It asks for the collection, keeping every entry outside production and only non-drafts in production. It projects each kept entry, in the loader's order, to `{title, description, slug, tags, pubDate}`.

Modules:

- `Wrappers` (`wrappers.dfy`): `Option` and `Result`.
- `ContentSchema` (`content_schema.dfy`): front-matter values, validation issues, post data, and `Parse`, the schema.
  - `Parse` collects every issue in schema order, as the schema library does; it does not stop at the first one.
  - `Conforms` is an independent, declarative statement of the schema.
  - `Render` writes post data back as front matter, which gives a round trip.
- `SearchIndex` (`search_index.dfy`): the visibility predicate, the filter `Retained`, the projection `ToRecord` and `BuildIndex`.
  - `KeptPositions` independently describes which positions the filter keeps: strictly increasing, only visible positions, and all of them.
- `Collection` (`collection.dfy`): the request as a whole.
  - It validates every file, and one invalid file fails the load.
  - It then builds the index.
  - It links the entry-level `draft` test to the `draft !== true` test on the raw front matter.

Library code is passed in as function-valued parameters rather than modelled:

- `coerce: Value -> Option<Instant>` stands for `new Date(value)` inside `z.coerce.date()`. `None` is an Invalid Date.
- `iso: Instant -> string` stands for `Date.prototype.toISOString`.

A JavaScript `Date` is represented by its time value, `Instant(millis)`.

Points where the behaviour is easy to misread:

- `z.string()` accepts the empty string, so `title` and `description` may be empty.
- `z.coerce.date()` passes an absent value to `new Date(undefined)`. That is an Invalid Date, so a missing `pubDate` is reported as an invalid date, not as "required". Either way no entry is produced.
- After validation `draft` is always a boolean, so the filter's `draft !== true` is exactly `!draft`. A non-boolean `draft`, such as the string `"true"` or `null`, fails validation. `ContentSchema.NormalisedDraftMatchesRawTest` and `Collection.ProductionVisibilityFollowsRawDraft` state this. `ContentSchema.NonBooleanDraftRejected` shows that no malformed draft value reaches the filter.

## Model

| member | source | states |
|---|---|---|
| ContentSchema.CheckTagItems | src/content.config.ts:13 | The elements of `tags` validate exactly when all are strings. The result is then the same strings, element for element and in order. Otherwise every non-string element is reported at `tags[i]`, and nothing else is reported. |
| ContentSchema.Parse | src/content.config.ts:6-19 | Validation succeeds exactly on the front matter that meets every field rule of the schema, in both directions. A rejected front matter always carries at least one issue. |
| ContentSchema.MissingRequiredFieldRejected | src/content.config.ts:7-9 | A missing `title` or `description` fails validation with a "required" issue at that field. A missing `pubDate` fails with an invalid-date issue. |
| ContentSchema.NormalisedRequiredFields | src/content.config.ts:7-9 | On success, `title` and `description` are the strings written. `pubDate` is the coerced instant of the written value. |
| ContentSchema.NormalisedDefaults | src/content.config.ts:11-13 | An absent `author` becomes `'Daniel Dieppa'`, an absent `draft` becomes `false`, and absent `tags` become empty. Present values are kept, tags element for element and in order. |
| ContentSchema.NormalisedOptionals | src/content.config.ts:10-18 | `updatedDate`, `image` and `readingTime` are absent in the output exactly when absent in the input. When present, they are carried through: the date coerced, the image as its `src` and `alt`. |
| ContentSchema.HalfSpecifiedImageRejected | src/content.config.ts:14-17 | An `image` with only one of `src` and `alt` fails validation. The missing half is reported as required. |
| ContentSchema.NonBooleanDraftRejected | src/content.config.ts:12 | A `draft` that is present but not a boolean fails validation with a type issue at `draft`. |
| ContentSchema.NormalisedDraftMatchesRawTest | src/content.config.ts:12 | The normalised `draft` is true exactly when the front matter says `draft: true`. |
| ContentSchema.IssuesNameSchemaFields | src/content.config.ts:6-19 | Every issue raised is located at one of the schema's nine fields. |
| ContentSchema.UnknownKeysIgnored | src/content.config.ts:6-19 | Dropping every key outside the schema does not change the outcome of validation. |
| ContentSchema.ParseRenderRoundTrip | src/content.config.ts:6-19 | Post data written back as front matter validates to itself, given that coercing a date keeps its instant. |
| SearchIndex.Retained | src/pages/api/search.json.ts:5-7 | The collection query returns no more entries than it was given, and each one is visible under the mode. |
| SearchIndex.BuildIndex | src/pages/api/search.json.ts:5-15 | The index is no longer than the entry sequence. An empty collection gives an empty index. |
| SearchIndex.KeptPositions | src/pages/api/search.json.ts:6 | The kept positions are strictly increasing and each is a visible entry. Every visible entry's position is among them. |
| SearchIndex.RetainedAtKeptPositions | src/pages/api/search.json.ts:5-7 | The filtered sequence is exactly the entries at the kept positions, in increasing position order. It is never re-sorted. |
| SearchIndex.BuildIndexFollowsKeptPositions | src/pages/api/search.json.ts:9-15 | Record k comes from the k-th visible entry. Its slug is that entry's id. Its title, description and tags are the entry's, tags element for element. Its pubDate is the ISO rendering of the entry's pubDate. |
| SearchIndex.ProductionHidesDrafts | src/pages/api/search.json.ts:5-9 | In production every record comes from a non-draft entry, and every non-draft entry contributes its record. The index length is the number of non-draft entries. |
| SearchIndex.NonDraftCount | src/pages/api/search.json.ts:5-7 | In production the query keeps exactly as many entries as there are non-draft positions. |
| SearchIndex.DevelopmentKeepsEverything | src/pages/api/search.json.ts:6-9 | Outside production the index has one record per entry, and record i is entry i's record. |
| SearchIndex.RecordDependsOnlyOnIndexedFields | src/pages/api/search.json.ts:9-15 | Two entries give the same record exactly when they agree on id, title, description, tags and rendered pubDate. Author, draft, image, updatedDate and readingTime never reach the index. |
| Collection.LoadCollection | src/content.config.ts:4-19 | The load succeeds exactly when every file validates. It then returns one entry per file, in order, with the file's slug and normalised data. Otherwise it fails with the issues of the first invalid file. |
| Collection.ServeSearchIndex | src/pages/api/search.json.ts:4-15 | The request fails, with no partial index, exactly when some file fails validation. A served index has at most one record per file. Outside production it has exactly one per file, and record i is file i's record: slug from the file's id, fields from its normalised data. |
| Collection.ProductionVisibilityFollowsRawDraft | src/pages/api/search.json.ts:6 | For loaded files, an entry is visible in production exactly when its front matter does not say `draft: true`. An absent `draft` counts as visible. |
| Collection.ProductionIndexFromFiles | src/pages/api/search.json.ts:5-15 | In production every record is the record of a file that is not marked `draft: true`, and every such file contributes its record. |
| Collection.ProductionIndexInFileOrder | src/pages/api/search.json.ts:5-15 | In production the index has one record per file not marked `draft: true`. Record k is the record of the k-th such file, in file order. |
| Collection.ExampleLoads | src/content.config.ts:7-13 | The two example files load with defaults applied: author `'Daniel Dieppa'`, no tags, and `draft` true only where written. |
| Collection.ExampleScenario | src/pages/api/search.json.ts:5-15 | With a draft "A" and an unmarked "B", production serves only B's record. Development serves A's and then B's. |

## Left out

- File discovery by the glob loader and the front-matter parsing (src/content.config.ts:5) are framework internals. The loader's output is an input: a sequence of files with slugs and parsed front matter, in enumeration order.
- Date coercion (`new Date(value)` inside `z.coerce.date()`) is library code. It is the parameter `coerce`, with no property assumed except in three lemmas. `ContentSchema.ParseRenderRoundTrip` assumes that a value already a `Date` keeps its instant. `Collection.ExampleLoads` and `Collection.ExampleScenario` assume that the strings `"2024-01-01"` and `"2024-02-01"` coerce to valid dates.
- `Date.prototype.toISOString` is library code. It is the parameter `iso`. The round trip of the ISO string back to the instant is therefore not stated.
- `JSON.stringify`, the `Response` object and the `Content-Type` header (src/pages/api/search.json.ts:17-21) are serialisation and HTTP plumbing over library code.
- The `async`/`await` around the collection query has no concurrency of interest. The call is modelled as a pure function of its input.
- `astro.config.mjs` is left out entirely. It holds debug logging to a file, a Vite transform hook whose only effect is logging and which always returns `null`, and static framework configuration.
- Validation issues carry a path and a code (required, invalid type, invalid date). The schema library's messages and its expected/received type details are not modelled.
- `readingTime` is modelled as a `real`. Floating point, NaN and the infinities are not modelled.
- Collection.LoadCollection: reports the first invalid file in enumeration order. The framework's choice of which failing file to report first is not visible here.
