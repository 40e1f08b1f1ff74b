# Landing-page index of the learnings site builder, in Dafny

The site builder (`compile.go`) converts each configured document into a
lesson directory and then builds the landing page. Before it renders the
page, it does two things this project models:

- `getMetadatas` reads every `build/learnings/*/codelab.json` in glob order and
  decodes it into a `Metadata` record. It prefixes the record's `Url` with
  `/learnings/` and collects the records. It stops with an error at the first
  file that cannot be read or decoded.
- `buildLanding` groups the records by tag. For every record and every tag of
  it, the lower-cased tag's bucket in `mappings` gets the record appended.
  It then lists the keys of `mappings` as `technologies`.

Files and modules:

- `wrappers.dfy` (`Wrappers`): `Option` and `Result`.
- `strings.dfy` (`Strings`): `ToLower`, an ASCII model of Go's `strings.ToLower`.
- `learnings.dfy` (`Learnings`): the `Metadata` record, the URL rewrite and its inverse.
- `aggregate.dfy` (`Aggregate`): `GetMetadatas`, the fail-fast accumulation loop.
- `tag_index.dfy` (`TagIndex`): the reference definitions of the index
  (`LoweredTags`, `Bucket`, `Positions`, `TotalSize`), their properties, and
  the two loops `BuildMappings` and `ListTechnologies`.
- `landing.dfy` (`Landing`): `BuildLanding`, which chains the three loops, and the
  case-colliding-tags scenario.

Go's buckets hold `*Metadata` pointers into the record list. The model holds
the records as values. Pointer identity is kept through `Positions(ms, t)`:
element `k` of bucket `t` is the record at list position `Positions(ms, t)[k]`.
So "record `i` appears `n` times in bucket `t`" is a statement about position
`i`. Two records with equal fields stay distinct this way.

Three behaviours of the code are worth noting:

- A record whose tags lower-case to the same key twice appears twice in that
  bucket, because the code appends once per tag (compile.go:107-109).
- The URL prefix is `/learnings/`, with a leading slash (compile.go:190).
- A decoding error does not name the file, because `json.Unmarshal`'s error is
  returned as is (compile.go:187-188). A read error names it, through Go's path
  error (compile.go:182-184).

## Model

| member | source | states |
|---|---|---|
| `Strings.ToLower` | compile.go:108 | the lower-cased tag has the tag's length, contains no upper-case ASCII letter, and agrees with the tag character by character up to case |
| `Strings.ToLowerIdempotent` | compile.go:108 | lower-casing an already lower-cased tag changes nothing |
| `Learnings.RewriteRoundTrip` | compile.go:190 | the URL rewrite loses nothing: the decoded record is recovered from the rewritten one, and every record with the prefix is the rewrite of what is recovered |
| `Learnings.RewrittenUrlIsRooted` | compile.go:190 | a rewritten URL is non-empty, starts with `/learnings/` and is rooted at `/` |
| `Aggregate.GetMetadatas` | compile.go:173-194 | a glob error is returned as is; otherwise the result is Ok exactly when every file reads and decodes; on Ok it holds one rewritten record per file in file order; on error the error is that of the first failing file; zero files give an empty list, not an error |
| `Aggregate.OneBadFileFailsAll` | compile.go:181-189 | one unreadable or undecodable file anywhere means the whole aggregation fails, at a first failing file no later than it |
| `TagIndex.TagCountPositive` | compile.go:107-109 | a record is counted under key `t` exactly when one of its tags lower-cases to `t` |
| `TagIndex.KeysAreLowerCase` | compile.go:108-109 | every key of the index is already lower-case |
| `TagIndex.BucketNonEmptyIff` | compile.go:105-111 | a bucket is non-empty exactly when its key is the lower-cased form of some record's tag |
| `TagIndex.BucketOrder` | compile.go:106-110 | bucket `t` is exactly the records at `Positions(ms, t)`, and those positions never decrease: records keep their list order within a bucket |
| `TagIndex.BucketMultiplicity` | compile.go:107-110 | the record at position `i` occurs in bucket `t` once per tag of it that lower-cases to `t`; duplicates are not merged |
| `TagIndex.AppendStep` | compile.go:108-109 | one append extends the bucket of the lower-cased tag by the current record and leaves every other bucket as it was; a missing key reads as an empty bucket |
| `TagIndex.BuildMappings` | compile.go:104-111 | the keys of `mappings` are exactly the lower-cased tags of the records; each bucket equals its reference contents `Bucket` and is non-empty; the bucket lengths add up to the number of tags over all records |
| `TagIndex.ListTechnologies` | compile.go:113-117 | `technologies` holds every key of `mappings` and nothing else, each exactly once, so its length is the number of keys |
| `Landing.BuildLanding` | compile.go:98-117 | an aggregation error stops the build and is returned unchanged; otherwise the learnings are the rewritten records in file order, the index has exactly the lower-cased tags as keys, each bucket is its reference contents and non-empty, the bucket lengths add up to the number of tags, `technologies` lists each key once and has as many entries as there are keys, and zero files give an empty list, an empty index and no technologies |
| `Landing.CaseCollidingTagsShareOneBucket` | compile.go:106-111 | two lessons both tagged `GCP` and `gcp` give the single key `gcp`, whose bucket holds each lesson twice, in lesson order |
| `Landing.SingleKeyTechnologies` | compile.go:113-117 | when the index has one key, the technology list is exactly that key |
| `Landing.CaseCollidingScenario` | compile.go:98-117 | two files that decode to lessons both tagged `GCP` and `gcp` give the technology list `["gcp"]` and the index `gcp` mapping to each rewritten lesson twice, in file order |

## Left out

- `main` (compile.go:42-75): reading `learnings.json`, clearing and recreating `build/`. Filesystem plumbing.
- `buildGDocs` (compile.go:196-216) and `copyStatics` (compile.go:77-96): they only start external processes (`claat`, `cp -R`) and wait for them.
- `compileTemplates` (compile.go:146-171) and the rest of `buildLanding` (compile.go:119-141): loading, minifying and executing HTML templates and creating `build/index.html`. They wrap libraries that are not part of this model. `BuildLanding` returns the `TemplateVariables` the template would be rendered against.
- `filepath.Glob` and `ioutil.ReadFile`: their results are an input, a `Result` holding one `FileEntry` per matched path with the outcome of reading it. The only glob error is a malformed pattern, `BadPattern`.
- `json.Unmarshal` (compile.go:187): decoding is the parameter `decode`, an arbitrary partial function from bytes to `Metadata`. Field defaults and unknown-field handling live inside it.
- `Strings.ToLower`: covers ASCII letters only. Go's `strings.ToLower` also lower-cases non-ASCII letters.
- `time.Time` of the `Updated` field: represented as an integer instant, which nothing in the model reads.
- Go map iteration order (compile.go:115): `ListTechnologies` takes the keys in an arbitrary order, so only which keys it holds and how many times are stated.
- Pointer aliasing between the record list and the buckets: records are values, and identity is carried by list position (`Positions`).
