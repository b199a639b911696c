# awesome-base-india, modelled in Dafny

awesome-base-india is a directory of Indian projects and founders building on
Base. Scraper scripts turn Devfolio hackathon records into a project list. MDX
generators turn that list into one content file per project and per founder.
Seeding scripts write registry rows to Supabase. The Next.js site reads the
content and filters it. A Telegram bot walks a user through a project
submission.

This project models the data logic of those pieces and proves what each one
promises. The JSON files, the front matter and the fetched pages become values
given to each operation. The Dafny modules follow the source files:

| module | models |
|---|---|
| `TransformToData` | `scripts/devfolio-scraper/transform_to_data.py`: category inference, description selection, founder attribution, link partition, the record normaliser |
| `ProfileExtract` | `find_in_obj` and `extract_users_and_stats` in `scripts/devfolio-scraper/fetch_devfolio_profile_json.py` |
| `ProfileMdx`, `Escape` | the rest of that script: social links, the founder schema, bio tags, `mdx_escape`, `generate_mdx`, the canonical usernames and the clean-up |
| `ProfileLinks` | `scripts/devfolio-scraper/merge_profile_links.py` |
| `FetchProfiles` | `scripts/devfolio-scraper/fetch_devfolio_profiles.py`: the Twitter-handle parser, username selection and result cleaning |
| `MdxFromJson`, `JsonText` | `scripts/generate-mdx-from-json.js`, with JSON.stringify's string quoting |
| `ProjectMdx` | `scripts/generate-project-mdx.ts` |
| `EditIds` | the `randomEditId` functions, and `scripts/add-edit-ids-to-founders.ts` |
| `SyncEditIds` | `scripts/sync-edit-ids-to-supabase.ts` |
| `SeedDirectory` | `scripts/seed-directory-to-supabase.ts` |
| `ReadmeEcosystem` | `scripts/generate-readme-ecosystem.js` |
| `ClawdKitchen` | `scripts/fetch-clawd-kitchen.js` |
| `Directory` | `lib/data.ts`: the record types, project lookup, founder cards and categories |
| `ProjectsResolved` | `lib/projects-resolved.ts` |
| `FounderLib` | `lib/founder.ts`: the cached front-matter map and the founders-for-pals merge |
| `FoundersPalsView` | `components/founders-pals-view.tsx`: `matchScore`, the search filter, the similar-founders ranking |
| `ProductGrid` | `components/product-grid.tsx`: the category, batch and search filter |
| `BotText`, `TelegramBot` | `telegram-bot/src/index.ts`: the text helpers and the per-user submission flow |
| `PyText` | Python's `str()`, `repr()` and `int()` of a JSON value, as the Devfolio scripts apply them to hashtags and counters |
| `Strings`, `JsonValue`, `Lists`, `Sorting` | shared helpers: ASCII string operations, the JSON value type, sequence combinators, and a stable sort by a caller-supplied order |

The model keeps the form of each source file. Loops that build lists, maps
or counters are Dafny methods with `while`/`for` loops. Each such method is
proved equal to a specification function, and the lemmas are stated about
that function. The two in-place updates are modelled as state:

- the founder-directory rewrite of `add-edit-ids-to-founders.ts` works on an `array`;
- the bot's `userFlows` map and the front-matter cache of `lib/founder.ts` are fields of a `class`.

The pure helpers (`slugify`, `escapeYaml`, the lookups, the filters) are
functions with lemmas.

Nondeterministic or foreign inputs are parameters:

- `Math.random` is an index stream `draws`; the k-th id uses draws 8k to 8k+7.
- `localeCompare` is an ordering `nameLe`, assumed to be a total preorder.
- `isValidUrl` is a parameter.
- The outcome of the database insert is a parameter.
- Each fetch result is a parameter.

### Where the code and its description differ

The model follows the code in each of these cases:

- **Tags.** `transform_to_data.py` does not deduplicate them (lines 124-129). They are only capped at 15; `TransformToData.TagNamesKeepDuplicates` shows a repeat being kept. A hashtag that is not a mapping is written as its Python `str()` text, and a mapping whose name is falsy stays the mapping itself (`TransformToData.TagValueExamples`).
- **Logo.** The fallback is the first two characters of the name, upper-cased (line 194), not an initialism of its words.
- **GitHub links.** Only the first GitHub link is taken. A second `github.com` link falls through to the other links (lines 163-175), as `TransformToData.SecondGithubIsOther` states.
- **Depth ceiling.** Only the walk of `extract_users_and_stats` has one (line 61). `find_in_obj` recurses without one (lines 30-48). It always terminates, because it only descends into sub-values.
- **List values in front matter.** Only `tags` is written as a list (lines 191-194 of `fetch_devfolio_profile_json.py`). Other list values are silently dropped, and so is an empty tag list.
- **Clean-up.** It removes every profile file named after a listed Twitter handle, whatever the case. That includes the canonical profile of a founder whose Devfolio username is their Twitter handle (see Findings).

## Model

| member | source | states |
|---|---|---|
| TransformToData.InferCategory | scripts/devfolio-scraper/transform_to_data.py:38-52 | the loops over the hashtags and then over the keyword table and each entry's keywords compute CategoryOf |
| TransformToData.CategoryIsFirstMatch | scripts/devfolio-scraper/transform_to_data.py:38-52 | the category is "Consumer" for no hashtags or when no entry matches, and otherwise the first entry in table order one of whose keywords contains, or is contained in, some lowercased tag name |
| TransformToData.CategoryFromFirstMatch | scripts/devfolio-scraper/transform_to_data.py:48-51 | the table search returns the first matching entry's category |
| TransformToData.CategoryFromNoMatch | scripts/devfolio-scraper/transform_to_data.py:52 | with no matching entry the search falls through to "Consumer" |
| TransformToData.AnyKeywordExists | scripts/devfolio-scraper/transform_to_data.py:49-50 | the nested keyword/tag search succeeds exactly when some keyword and some tag are related |
| TransformToData.CategoryExampleEmptyTag | scripts/devfolio-scraper/transform_to_data.py:50 | an empty tag name is contained in every keyword, so it selects the first category, AI |
| TransformToData.CategoryTagNames | scripts/devfolio-scraper/transform_to_data.py:42-47 | at most one name per hashtag (mappings with a name and strings, lowercased) |
| TransformToData.SiteCategoriesFollowKeywordTable | lib/data.ts:61-74 | the site's category filter is "All" followed by the keyword table's categories in the same order |
| TransformToData.DescriptionText | scripts/devfolio-scraper/transform_to_data.py:55-69 | at most 400 characters; "" for a falsy value or one that is neither string nor list; a string is stripped and cut; a first section gives one line without newlines |
| TransformToData.StripHeading | scripts/devfolio-scraper/transform_to_data.py:66 | the result is a suffix of the input, and text not starting with '#' is unchanged |
| TransformToData.CollapseNewlines | scripts/devfolio-scraper/transform_to_data.py:67 | the result contains no newline |
| TransformToData.CollapseNewlinesIdentity | scripts/devfolio-scraper/transform_to_data.py:67 | text without newlines is left alone |
| TransformToData.ShortDescription | scripts/devfolio-scraper/transform_to_data.py:119-121 | the tagline, else the description text, else "Built on Base."; over 380 characters it becomes its first 377 characters and "...", so it is never empty or longer than 380 |
| TransformToData.SectionPart | scripts/devfolio-scraper/transform_to_data.py:84-96 | a kept section is non-empty and neither starts nor ends with whitespace |
| TransformToData.FullDescriptionMarkdown | scripts/devfolio-scraper/transform_to_data.py:72-97 | the section loop computes FullDescriptionSpec |
| TransformToData.FullDescriptionIsJoin | scripts/devfolio-scraper/transform_to_data.py:72-97 | for a list the result is empty exactly when no section is kept, and otherwise is the kept parts joined by blank lines: the final strip never changes it |
| TransformToData.KeptFounders | scripts/devfolio-scraper/transform_to_data.py:133-141 | the members loop computes KeptFoundersSpec |
| TransformToData.MembersWellFormed | scripts/devfolio-scraper/transform_to_data.py:134-141 | every kept founder has a name and a non-empty handle without spaces |
| TransformToData.PartitionLinks | scripts/devfolio-scraper/transform_to_data.py:152-176 | the links loop computes PartitionSpec, keeping at most five other links |
| TransformToData.GithubIsFirst | scripts/devfolio-scraper/transform_to_data.py:158-164 | the github link is empty exactly when no candidate segment mentions github.com, and otherwise is the first such segment, stripped |
| TransformToData.OtherLinksAreKept | scripts/devfolio-scraper/transform_to_data.py:168-175 | every other link is a stripped segment starting with "http" that is no Farcaster or YouTube link and on no skipped domain |
| TransformToData.SecondGithubIsOther | scripts/devfolio-scraper/transform_to_data.py:163-175 | once a github link is taken, a further github.com segment on no skipped domain goes to the other links and the github link stays |
| TransformToData.TagNames | scripts/devfolio-scraper/transform_to_data.py:124-129 | the first 15 truthy hashtags, in order, each turned into its value: a mapping's name when truthy and else the mapping itself, and for anything else its Python `str()` text; every value comes from a truthy hashtag |
| TransformToData.TagValueExamples | scripts/devfolio-scraper/transform_to_data.py:126 | a list hashtag `["x"]` becomes the text `['x']`, a number 7 becomes "7", a mapping with an empty name stays the mapping and a number name 3 stays 3 |
| PyText.StrReprRoundTrip | scripts/devfolio-scraper/transform_to_data.py:126 | the text between the quotes of `repr(s)` reads back as s, so the quoting and escaping lose nothing |
| TransformToData.TagNamesKeepDuplicates | scripts/devfolio-scraper/transform_to_data.py:124-129 | the tag list is capped but not deduplicated: a repeated hashtag appears twice |
| TransformToData.Logo | scripts/devfolio-scraper/transform_to_data.py:194 | the stripped favicon or cover image when there is one; otherwise the first two characters of the name (not the initials of its words), upper-cased |
| TransformToData.Assemble | scripts/devfolio-scraper/transform_to_data.py:184-212 | the mandatory keys are non-blank, source equals url, optional keys appear only with a non-empty value, founderTwitter is the first founder's handle, prizes never appear |
| TransformToData.NormalizeSpec | scripts/devfolio-scraper/transform_to_data.py:107-213 | a record yields a project exactly when it is a mapping |
| TransformToData.NormalizedRecordShape | scripts/devfolio-scraper/transform_to_data.py:107-213 | every normalised record has the output shape described for Assemble |
| TransformToData.FounderAttribution | scripts/devfolio-scraper/transform_to_data.py:131-146 | the first member with a usable username supplies founder and founderTwitter; without one the project name and the slug (or "devfolio") stand in |
| TransformToData.Normalize | scripts/devfolio-scraper/transform_to_data.py:107-213 | the per-record body computes NormalizeSpec |
| TransformToData.TransformAll | scripts/devfolio-scraper/transform_to_data.py:100-213 | the main loop computes TransformSpec |
| TransformToData.TransformCount | scripts/devfolio-scraper/transform_to_data.py:107-109 | one project per input record that is a mapping; the others are skipped but keep their number |
| ProfileExtract.FindInObj | scripts/devfolio-scraper/fetch_devfolio_profile_json.py:30-48 | an empty path gives the object itself; a non-empty path into a value that is neither a mapping nor a list finds nothing |
| ProfileExtract.FindIsFirstMatch | scripts/devfolio-scraper/fetch_devfolio_profile_json.py:30-48 | find_in_obj returns the first non-null value of the depth-first listing of what the path reaches, fields and items in order, or None when there is none |
| ProfileExtract.MatchesAreReached | scripts/devfolio-scraper/fetch_devfolio_profile_json.py:30-48 | the depth-first listing holds exactly the values reached along a chain of the path's keys |
| ProfileExtract.FindInObjFirst | scripts/devfolio-scraper/fetch_devfolio_profile_json.py:29-48 | the result is None exactly when every listed value is null; otherwise it is a listed value with only nulls listed before it, and it is reached along the path |
| ProfileMdx.IsDuplicateProfile | scripts/devfolio-scraper/fetch_devfolio_profile_json.py:300-311 | as written, a file is a duplicate exactly when some links entry has a Twitter handle equal to its name up to case |
| ProfileMdx.IsDuplicateProfileFixed | scripts/devfolio-scraper/fetch_devfolio_profile_json.py:300-311 | corrected, a file is a duplicate exactly when some links entry has a Twitter handle equal to its name up to case and no entry is keyed by the name itself |
| ProfileExtract.FindInObjSpec | scripts/devfolio-scraper/fetch_devfolio_profile_json.py:30-48 | find_in_obj is sound and complete for "some value sits below a chain of the path's keys": a non-null result is reached along the path, and when a non-null value is reachable the search returns one |
| ProfileExtract.FindSound | scripts/devfolio-scraper/fetch_devfolio_profile_json.py:34-47 | a non-null result is reachable along the path's keys (mappings and lists searched depth first) |
| ProfileExtract.FindComplete | scripts/devfolio-scraper/fetch_devfolio_profile_json.py:34-47 | a reachable non-null value means the search does not return None |
| ProfileExtract.FullPathRetryFindsNothing | scripts/devfolio-scraper/fetch_devfolio_profile_json.py:36-40 | when a key matches path[0] but the rest of the path finds nothing below it, the second search of the same value with the whole path finds nothing either |
| ProfileExtract.WalkTree | scripts/devfolio-scraper/fetch_devfolio_profile_json.py:59-76 | the recursive walk (stopping below depth 30, checking users, userDevfolioStats, profiles and address at every mapping, then its values, then list items) computes the Walk specification |
| ProfileExtract.WalkKeeps | scripts/devfolio-scraper/fetch_devfolio_profile_json.py:61-71 | the walk never replaces a user, address or stats value once found, and replaces the profiles list only by a non-empty one |
| ProfileExtract.ExtractUsersAndStats | scripts/devfolio-scraper/fetch_devfolio_profile_json.py:51-99 | the result is the walk over the whole payload started from what the pass over dehydratedState.queries found |
| ProfileExtract.QueryPassWins | scripts/devfolio-scraper/fetch_devfolio_profile_json.py:78-98 | a user, address or stats value found in the query pass is the one returned; its profiles list survives unless the walk meets a non-empty one |
| ProfileExtract.QueryProfilesLastWins | scripts/devfolio-scraper/fetch_devfolio_profile_json.py:91-92 | in the query pass the last query whose data has a profiles list decides the list, even an empty one |
| ProfileExtract.QueryUserFirstWins | scripts/devfolio-scraper/fetch_devfolio_profile_json.py:89-90 | the first query whose data has a non-empty users list decides the user |
| ProfileExtract.QueryUserNone | scripts/devfolio-scraper/fetch_devfolio_profile_json.py:89-90 | with no such query the query pass finds no user |
| ProfileExtract.QueryStaysFound | scripts/devfolio-scraper/fetch_devfolio_profile_json.py:89-90 | a user found among the first k queries is not changed by later ones |
| ProfileMdx.SocialFromProfiles | scripts/devfolio-scraper/fetch_devfolio_profile_json.py:102-116 | the loop computes SocialOf: for each of github, twitter and linkedin, the link of the last entry that names the platform |
| ProfileMdx.SocialLinkIsLastNamed | scripts/devfolio-scraper/fetch_devfolio_profile_json.py:104-116 | a platform no entry names has no link; a recorded link is the non-blank link of an entry naming the platform after which no entry names it |
| ProfileMdx.SocialLinkOfLast | scripts/devfolio-scraper/fetch_devfolio_profile_json.py:110-115 | the last entry naming a platform decides its link even when that entry's link is blank (`url or None` overwrites an earlier link with None) |
| ProfileMdx.SocialOfNonBlank | scripts/devfolio-scraper/fetch_devfolio_profile_json.py:111-115 | no recorded link is the empty string |
| ProfileMdx.UrlOrNone | scripts/devfolio-scraper/fetch_devfolio_profile_json.py:111 | `url or None` is a value only for a non-empty link, and then that link |
| ProfileMdx.StatsOf | scripts/devfolio-scraper/fetch_devfolio_profile_json.py:141-151 | the five counters are all zero unless the statistics are a non-empty mapping |
| ProfileMdx.StatCountFromText | scripts/devfolio-scraper/fetch_devfolio_profile_json.py:147-151 | a counter stored as decimal text reads as the number it spells, as `int()` reads it |
| ProfileMdx.CountOfText | scripts/devfolio-scraper/fetch_devfolio_profile_json.py:147-151 | the decimal text of any integer is read back as that integer |
| PyText.IntOfRoundTrip | scripts/devfolio-scraper/fetch_devfolio_profile_json.py:147-151 | `int()` of the decimal text of any integer, negative ones included, is that integer |
| ProfileMdx.DisplayName | scripts/devfolio-scraper/fetch_devfolio_profile_json.py:124-126 | the stripped "first last" name falls back to the username, so it is never blank for a non-empty username |
| ProfileMdx.CountryOf | scripts/devfolio-scraper/fetch_devfolio_profile_json.py:136-139 | the country is never blank and is India when no address was found |
| ProfileMdx.TagCandidate | scripts/devfolio-scraper/fetch_devfolio_profile_json.py:156-158 | a kept word is the word with dots and hashes stripped from both ends, longer than two characters, alphanumeric and not a stop word |
| ProfileMdx.BioTags | scripts/devfolio-scraper/fetch_devfolio_profile_json.py:153-159 | the tag loop, the order-keeping dedupe and the cut to twelve compute BioTagsSpec |
| ProfileMdx.BioTagsFacts | scripts/devfolio-scraper/fetch_devfolio_profile_json.py:153-159 | at most twelve tags, none repeated, each a qualifying stripped word of the two biographies |
| ProfileMdx.FounderSchema | scripts/devfolio-scraper/fetch_devfolio_profile_json.py:161-177 | the fifteen keys in the script's order, with username, name, country and tags in place and None standing for every blank optional string |
| ProfileMdx.BuildFounderSchema | scripts/devfolio-scraper/fetch_devfolio_profile_json.py:119-177 | a falsy user gives exactly username and name = username; otherwise the fifteen keys, a non-blank name, the country of CountryOf, no blank optional string, at most twelve distinct tags; the username always comes first |
| ProfileMdx.PlaceholderSchema | scripts/devfolio-scraper/fetch_devfolio_profile_json.py:266 | the placeholder schema starts with the username |
| ProfileMdx.PlaceholderNameFacts | scripts/devfolio-scraper/fetch_devfolio_profile_json.py:266 | the placeholder name is the username with underscores turned into spaces and title-cased: it equals that text up to case, holds no underscore, and has a capital exactly at the first letter of each run of letters |
| Strings.TitleCaseCapitals | scripts/devfolio-scraper/fetch_devfolio_profile_json.py:266 | after `title()` a letter is a capital exactly when it is the first character or follows a non-letter |
| ProfileMdx.About | scripts/devfolio-scraper/fetch_devfolio_profile_json.py:204 | the About paragraph is the biography's first 2000 characters (all of it when shorter), or the edit prompt when there is none |
| ProfileMdx.GenerateMdx | scripts/devfolio-scraper/fetch_devfolio_profile_json.py:186-215 | the line-building loop computes MdxText: delimiter, the entries' lines, delimiter and the fixed body, joined by newlines |
| ProfileMdx.EntryLinesShape | scripts/devfolio-scraper/fetch_devfolio_profile_json.py:189-199 | every front-matter line an entry produces is one physical line and is not the delimiter |
| ProfileMdx.FrontMatterReadsBack | scripts/devfolio-scraper/fetch_devfolio_profile_json.py:186-215 | splitting the document at newlines gives the opening delimiter, exactly the front-matter lines and the closing delimiter, and no front-matter line is taken for a delimiter |
| ProfileMdx.MdxStartsWithUsername | scripts/devfolio-scraper/fetch_devfolio_profile_json.py:188-197 | a schema that starts with the username yields a document whose second line is `username: "<escaped username>"` |
| ProfileMdx.PageSchema | scripts/devfolio-scraper/fetch_devfolio_profile_json.py:259-293 | whichever way fetching the page went (network error, no __NEXT_DATA__, bad JSON, data), the schema starts with the username |
| ProfileMdx.ProfileDocumentStartsWithUsername | scripts/devfolio-scraper/fetch_devfolio_profile_json.py:259-296 | every document written for a username opens with the delimiter and that username's line |
| ProfileMdx.CollectUsernames | scripts/devfolio-scraper/fetch_devfolio_profile_json.py:231-252 | the handle collection and canonicalisation compute CanonicalUsernames |
| ProfileMdx.CanonicalUsernameOrigin | scripts/devfolio-scraper/fetch_devfolio_profile_json.py:231-252 | each username fetched is a project handle that profile_links.json does not know, or the Devfolio username it gives for a handle of some project (case ignored) |
| ProfileMdx.CleanupDeletesCanonicalProfile | scripts/devfolio-scraper/fetch_devfolio_profile_json.py:300-311 | as written, the clean-up deletes a profile written in the same run: a founder whose Devfolio username equals their own Twitter handle up to case |
| ProfileMdx.FixedCleanupKeepsWrittenProfiles | scripts/devfolio-scraper/fetch_devfolio_profile_json.py:300-311 | with the corrected test (a handle file is a duplicate only when the handle is not itself a Devfolio username) no profile written in the run counts as a duplicate |
| ProfileMdx.FixedCleanupRemovesHandleFiles | scripts/devfolio-scraper/fetch_devfolio_profile_json.py:306-309 | the corrected test still removes the files the clean-up targets: those named after a Twitter handle whose owner has a different username, in any case |
| ProfileMdx.FilesAfterRunKeepWritten | scripts/devfolio-scraper/fetch_devfolio_profile_json.py:300-311 | after a full run with the corrected clean-up every profile written in the run is still there |
| Escape.EscapeIsCharwise | scripts/devfolio-scraper/fetch_devfolio_profile_json.py:180-183 | the three chained replacements of mdx_escape equal a one-pass escape of each character: they never disturb one another |
| Escape.EscapeRoundTrip | scripts/devfolio-scraper/fetch_devfolio_profile_json.py:180-183 | reading an escaped value back (a backslash takes the next character literally) gives the original with newlines turned into spaces |
| FetchProfiles.ExtractHandleFromTwitterUrl | scripts/devfolio-scraper/fetch_devfolio_profiles.py:28-38 | an empty link gives None; a handle found is non-empty and holds no '/' or '?' |
| FetchProfiles.HandleRoundTrip | scripts/devfolio-scraper/fetch_devfolio_profiles.py:28-38 | a link built from any of the four prefixes and a handle, followed by nothing, a path, a query or trailing slashes, gives back exactly that handle |
| FetchProfiles.MatchPrefixesAt | scripts/devfolio-scraper/fetch_devfolio_profiles.py:33-37 | the prefix search settles on the first prefix the lowercased link starts with when the handle after it is non-empty |
| FetchProfiles.StartsWithOnly | scripts/devfolio-scraper/fetch_devfolio_profiles.py:33-34 | a link starting with one prefix matches no earlier one, compared in lower case |
| FetchProfiles.WwwHostGivesNone | scripts/devfolio-scraper/fetch_devfolio_profiles.py:33-38 | a www. host is not recognised |
| FetchProfiles.CollectFounderUsernames | scripts/devfolio-scraper/fetch_devfolio_profiles.py:108-112 | the loop computes Usernames |
| FetchProfiles.UsernamesMembers | scripts/devfolio-scraper/fetch_devfolio_profiles.py:108-112 | a username is visited exactly when some project's stripped founderTwitter is it and it is neither empty nor "devfolio" |
| FetchProfiles.SortedUsernames | scripts/devfolio-scraper/fetch_devfolio_profiles.py:116 | sorted(usernames) holds every username once, in strictly increasing code-point order |
| FetchProfiles.CleanEntry | scripts/devfolio-scraper/fetch_devfolio_profiles.py:123 | the entry keeps exactly the fields not named "_error" |
| FetchProfiles.FetchProfilesMain | scripts/devfolio-scraper/fetch_devfolio_profiles.py:100-127 | no projects file writes nothing; otherwise the results hold one cleaned entry per visited username, for exactly the usernames of the projects |
| FetchProfiles.ResultsFacts | scripts/devfolio-scraper/fetch_devfolio_profiles.py:115-127 | the results file's keys are distinct non-empty usernames named by projects, every entry is an object and none keeps "_error" |
| ProfileLinks.BuildTwitterIndex | scripts/devfolio-scraper/merge_profile_links.py:30-35 | the loop computes TwitterIndex: each lowercased non-blank handle maps to the Devfolio username of the last entry holding it |
| ProfileLinks.MergeProject | scripts/devfolio-scraper/merge_profile_links.py:38-57 | only founderTwitter, founderTwitterHandle and founderGithub can change, and an empty or "devfolio" key leaves the record as it is |
| ProfileLinks.MergeCases | scripts/devfolio-scraper/merge_profile_links.py:39-57 | a known Twitter handle becomes its Devfolio username and is kept as the handle (counted); a Devfolio username with a handle only gains it (counted); otherwise nothing is rewritten; the GitHub url of the canonical user is added when it has one |
| ProfileLinks.MergeNeverEmpties | scripts/devfolio-scraper/merge_profile_links.py:43-57 | when no Devfolio username in the file is empty, no populated field is replaced by an empty value |
| ProfileLinks.MergeProfileLinks | scripts/devfolio-scraper/merge_profile_links.py:20-60 | a missing links file changes nothing; otherwise the array becomes MergedProjects of the old contents and the count is UpdatedCount |
| MdxFromJson.SafeFilename | scripts/generate-mdx-from-json.js:36-38 | the file name is never empty and holds none of the nine unsafe characters |
| MdxFromJson.SafeFilenameKeepsSafe | scripts/generate-mdx-from-json.js:36-38 | a trimmed name without unsafe characters is kept as it is |
| MdxFromJson.SafeFilenameIdempotent | scripts/generate-mdx-from-json.js:36-38 | applying safeFilename twice gives what applying it once gives |
| MdxFromJson.SlugToFilename | scripts/generate-mdx-from-json.js:32-34 | the slug followed by ".mdx" |
| MdxFromJson.Value | scripts/generate-mdx-from-json.js:74 | a string value prints on one line; one holding a newline or a colon is JSON-quoted and reads back as itself; any other string is printed as it is |
| MdxFromJson.ValueOneLine | scripts/generate-mdx-from-json.js:74 | every value that is not an array (whose items could hold newlines) prints on one line |
| MdxFromJson.Entry | scripts/generate-mdx-from-json.js:74 | the entry line reads back as its key and value after ": ", and is one line when the value is |
| MdxFromJson.DocumentReadsBack | scripts/generate-mdx-from-json.js:71-77 | splitting a document into lines gives the delimiter, the entry lines, the delimiter, an empty line and the body's lines |
| MdxFromJson.ProjectFile | scripts/generate-mdx-from-json.js:56-60 | a project gets a file exactly when `p.slug \|\| p.id` is truthy in JavaScript, and the file is named by that value's text and ".mdx" |
| MdxFromJson.EmptyListSlugKept | scripts/generate-mdx-from-json.js:56-60 | an empty list is truthy in JavaScript: a project whose slug is `[]` keeps it and gets the file ".mdx", though it has an id |
| MdxFromJson.EditId | scripts/generate-mdx-from-json.js:62 | "proj-" and `.slice(0, 8)` of `p.id \|\| slug` (truthy in JavaScript): the first eight characters of a string, the first eight items of a list printed as a list, and nothing for another value |
| MdxFromJson.ProjectLines | scripts/generate-mdx-from-json.js:64-70 | five front-matter entries, with JavaScript's `\|\|` choosing the description |
| MdxFromJson.ProjectLinesOneLine | scripts/generate-mdx-from-json.js:64-74 | when slug, id, name and description are not arrays, each of the five entries is one line |
| MdxFromJson.ProjectDocumentLines | scripts/generate-mdx-from-json.js:60-78 | when slug, id, name and description are not arrays the project file has exactly the five entry lines between the delimiters, then the body with its url |
| MdxFromJson.FounderMap | scripts/generate-mdx-from-json.js:82-101 | the Map holds no two founders whose usernames agree ignoring case |
| MdxFromJson.FounderMapFacts | scripts/generate-mdx-from-json.js:82-101 | every founder met has its key in the Map, under the first founder met with that key, and the Map keeps the order in which the keys first appear |
| MdxFromJson.CoFounder | scripts/generate-mdx-from-json.js:94-100 | a co-founder is added only with a non-blank twitter, its name chosen by JavaScript's `\|\|` |
| MdxFromJson.FounderValue | scripts/generate-mdx-from-json.js:123 | a founder value is printed on one line: a list as JSON.stringify writes it, any other value as a project value is |
| MdxFromJson.FounderLines | scripts/generate-mdx-from-json.js:108-124 | eight front-matter lines |
| MdxFromJson.FounderLinesOneLine | scripts/generate-mdx-from-json.js:108-123 | each of the eight entries is one line, whatever the values hold, lists included |
| MdxFromJson.FounderDocumentLines | scripts/generate-mdx-from-json.js:118-127 | the founder file has the eight entry lines between the delimiters, then the fixed body |
| MdxFromJson.FounderUsernameReadsBack | scripts/generate-mdx-from-json.js:108-123 | reading the username line back gives the username, quoted or not |
| MdxFromJson.ProjectPass | scripts/generate-mdx-from-json.js:55-80 | the project loop writes the file of every project whose file is neither present nor already written, and counts those writes |
| MdxFromJson.CollectFounders | scripts/generate-mdx-from-json.js:55-102 | the founder collection computes FounderMap of every project's founders, primary first, with the candidates chosen by JavaScript's `\|\|` |
| MdxFromJson.MapHas | scripts/generate-mdx-from-json.js:87-98 | `founderByUsername.has(key)` is true exactly when some founder in the Map has that key |
| MdxFromJson.AddFounders | scripts/generate-mdx-from-json.js:83-101 | adding one project's founders to the Map gives the Map of all founders met so far, the first occurrence of each key winning |
| MdxFromJson.FounderPass | scripts/generate-mdx-from-json.js:104-131 | the founder loop writes, in Map order, the file of every founder whose file is neither present nor already written, and counts those writes |
| MdxFromJson.GenerateMdx | scripts/generate-mdx-from-json.js:40-131 | no project list writes nothing; otherwise the project writes and the founder writes of the two passes, with counters equal to the number of writes |
| MdxFromJson.ProjectRunFacts | scripts/generate-mdx-from-json.js:55-80 | afterwards every project with a slug or id has a file; every write creates a new file, no file is written twice, and the counter is the number of files created |
| MdxFromJson.FounderRunFacts | scripts/generate-mdx-from-json.js:104-131 | afterwards every founder in the Map has a file; every write creates a new file, no file is written twice, and the counter is the number of files created |
| ProjectMdx.EscapeYaml | scripts/generate-project-mdx.ts:23-26 | the escaped text holds no newline, the empty string stays empty, and unescaping gives the input with each newline turned into a space |
| ProjectMdx.FrontMatter | scripts/generate-project-mdx.ts:30-42 | eight entries between two "---" delimiters, led by the edit_id line; the description line is null exactly when the trimmed description is empty, the logo line exactly when the trimmed logo is empty or does not start with "http" |
| ProjectMdx.BodyLines | scripts/generate-project-mdx.ts:43-49 | the body placeholder ends with "## Links" and a blank line |
| ProjectMdx.LinkLines | scripts/generate-project-mdx.ts:51-55 | one to three link lines, each a list item: the Devfolio link first when there is a url, the GitHub link when there is a github, the Farcaster link last when there is a farcaster, and only the default Devfolio link when there is none |
| ProjectMdx.RawLinesEnd | scripts/generate-project-mdx.ts:34-56 | dropping nulls keeps "## Links" and the blank line at the end; filter(Boolean) ends on "## Links" itself |
| ProjectMdx.LinksHeadingRunsIntoFirstLink | scripts/generate-project-mdx.ts:56 | as written, the text is the kept lines ending in "## Links" immediately followed by the first link line's "-", with no line break between |
| ProjectMdx.FixedLinksOnTheirOwnLines | scripts/generate-project-mdx.ts:34-56 | with only nulls dropped, "## Links" ends its own line and each link line follows on a line of its own |
| ProjectMdx.BuildNewMdxAsWritten | scripts/generate-project-mdx.ts:34-56 | as written, the file opens with the front matter's "---" and ends with a line break |
| ProjectMdx.BuildNewMdx | scripts/generate-project-mdx.ts:34-56 | with only nulls dropped, the file still opens with "---" and ends with a line break |
| ProjectMdx.GiveId | scripts/generate-project-mdx.ts:81 | a file given a non-empty id has an edit id |
| ProjectMdx.NewFile | scripts/generate-project-mdx.ts:86-96 | a created file carries the edit id it was written with |
| ProjectMdx.Step | scripts/generate-project-mdx.ts:72-99 | one project draws at most one id |
| ProjectMdx.RunStep | scripts/generate-project-mdx.ts:72-100 | the run over one more project is one more step |
| ProjectMdx.RunProject | scripts/generate-project-mdx.ts:73-99 | the loop body for one project computes the step: a blank slug or a file with an edit_id (truthy in JavaScript) changes nothing; an existing file gets the next id and counts as updated; a missing file is created with the next id and counts as created |
| ProjectMdx.GenerateProjectMdx | scripts/generate-project-mdx.ts:59-102 | a missing project list ends the run with nothing done; otherwise main's loop gives the run over all projects in order |
| ProjectMdx.StepFacts | scripts/generate-project-mdx.ts:72-99 | after a step the project's file exists and has an edit id; a blank slug or a file that already had an id leaves everything as it was; no other file changes and no other file appears |
| ProjectMdx.RunFacts | scripts/generate-project-mdx.ts:59-102 | after the run every project with a slug has a file with an edit id, no file disappears, files that had an id are untouched, and created plus updated is at most the number of projects |
| ProjectMdx.SecondRunChangesNothing | scripts/generate-project-mdx.ts:59-102 | running again right after a run creates and updates nothing and leaves every file as it was, whatever ids it would draw |
| ProjectMdx.QuietRun | scripts/generate-project-mdx.ts:76-80 | a run over a directory where every project's file already has an edit id changes nothing and counts nothing |
| EditIds.EditIdFrom | scripts/generate-project-mdx.ts:16-21 | an id is eight characters, each from the 31-character alphabet without i, l, o, 0 and 1 |
| EditIds.RandomEditId | scripts/add-edit-ids-to-founders.ts:13-18 | the loop builds the id of the n-th call from the draws |
| EditIds.EditIdTruthy | scripts/add-edit-ids-to-founders.ts:31-32 | a drawn id is truthy, so its file counts as having one |
| EditIds.SetField | scripts/add-edit-ids-to-founders.ts:32 | after `data.edit_id = v` the key reads v and every other key reads as before |
| EditIds.Stem | scripts/sync-edit-ids-to-supabase.ts:36 | the name without its ".mdx" ending, or the name itself when it has none |
| EditIds.CountNeeding | scripts/add-edit-ids-to-founders.ts:25-37 | the number of files that get an id is at most the number of files |
| EditIds.WithIds | scripts/add-edit-ids-to-founders.ts:25-37 | the pass keeps the number of files |
| EditIds.EmptyListIdKept | scripts/add-edit-ids-to-founders.ts:31 | an `edit_id` of `[]` is truthy in JavaScript, so the pass keeps it and counts nothing to add |
| EditIds.AddEditIds | scripts/add-edit-ids-to-founders.ts:20-39 | a missing directory adds nothing; otherwise the files become the pass's result, in readdir order, and the count is the number of .mdx files that lacked an id (a falsy `edit_id` in JavaScript) |
| EditIds.WithIdsFacts | scripts/add-edit-ids-to-founders.ts:25-37 | files that are not .mdx files or already have an id are unchanged, names and contents are kept, and every .mdx file has an id afterwards |
| EditIds.CountNeedingNone | scripts/add-edit-ids-to-founders.ts:31 | when no file lacks an id the count is zero |
| EditIds.WithIdsNone | scripts/add-edit-ids-to-founders.ts:31 | when no file lacks an id the pass changes nothing |
| EditIds.SecondRunAddsNothing | scripts/add-edit-ids-to-founders.ts:20-39 | running the pass again adds no id and changes no file, whatever ids it would draw |
| SyncEditIds.RowOf | scripts/sync-edit-ids-to-supabase.ts:30-39 | a file gives a row exactly when it is an .mdx file whose trimmed edit_id is non-empty; the row has the directory's type, the file's owner and the edit id lower-cased (same length, no upper-case letter) |
| SyncEditIds.IdentifierFallback | scripts/sync-edit-ids-to-supabase.ts:36 | the owner is the trimmed username (or slug) when it is non-blank, and otherwise the file name without ".mdx" |
| SyncEditIds.SyncRows | scripts/sync-edit-ids-to-supabase.ts:28-58 | a missing directory gives no rows; otherwise the loop gives the rows of the files in readdir order |
| SyncEditIds.RowsType | scripts/sync-edit-ids-to-supabase.ts:38 | every row has the directory's type and a non-empty edit id |
| SyncEditIds.RowsFacts | scripts/sync-edit-ids-to-supabase.ts:32-40 | every row comes from one of the files and every file with an edit id gives its row; there are no rows exactly when no .mdx file has an edit id |
| SyncEditIds.SyncEditIds | scripts/sync-edit-ids-to-supabase.ts:60-72 | the batch is the founder rows followed by the project rows, and nothing is upserted exactly when both are empty |
| SyncEditIds.FoundersFirst | scripts/sync-edit-ids-to-supabase.ts:64 | in the batch every founder row comes before every project row |
| SeedDirectory.JoinedList | scripts/seed-directory-to-supabase.ts:58-61 | a list becomes its items joined with ", " (an empty list gives ""), and anything that is not a list gives null |
| SeedDirectory.LogoUrl | scripts/seed-directory-to-supabase.ts:75 | the logo is kept exactly when it is a string starting with "http", and is null otherwise |
| SeedDirectory.ProjectRowOf | scripts/seed-directory-to-supabase.ts:54-81 | the slug is the slug, else the id, else ""; missing links give "" and links that are not a list give null; tags are null exactly when they are not a list; the founder name and twitter are null exactly when neither the project field nor the first founder's field is set |
| SeedDirectory.LoadProjectsFacts | scripts/seed-directory-to-supabase.ts:49-83 | the seeded project rows are, in order, a subsequence of the mapped projects, holding exactly the rows with a slug and a name that are truthy in JavaScript |
| SeedDirectory.LoadProjects | scripts/seed-directory-to-supabase.ts:49-83 | no projects file gives no rows; there are at most as many rows as projects, and each has a slug and a name truthy in JavaScript |
| SeedDirectory.EmptyListSlugSeeded | scripts/seed-directory-to-supabase.ts:82 | a row whose slug is `[]` passes `r.slug && r.name`, since an empty list is truthy in JavaScript |
| SeedDirectory.EmptySlugDropped | scripts/seed-directory-to-supabase.ts:55-82 | since `??` keeps "", a project whose slug is the empty string is dropped even when it has an id |
| SeedDirectory.NumText | scripts/seed-directory-to-supabase.ts:122-126 | a counter column is null exactly when the value is missing or null, and otherwise the value as String() writes it |
| SeedDirectory.FounderRowOf | scripts/seed-directory-to-supabase.ts:107-128 | the username is the front matter's username, or the file name without ".mdx" when it has none; the name falls back to the username, so neither is ever null; tags are null exactly when they are not a list |
| SeedDirectory.LoadFounders | scripts/seed-directory-to-supabase.ts:102-131 | a missing directory gives no rows; otherwise the loop gives one row per .mdx file in readdir order |
| SeedDirectory.FounderRowsFacts | scripts/seed-directory-to-supabase.ts:104-130 | there is a founder row for every .mdx file and for nothing else |
| SeedDirectory.SeedDirectoryMain | scripts/seed-directory-to-supabase.ts:133-165 | each table is upserted with all its loaded rows, and is not upserted exactly when it has none |
| ReadmeEcosystem.OrderFacts | scripts/generate-readme-ecosystem.js:37 | the output order names each of the nine sections exactly once |
| ReadmeEcosystem.CategorySection | scripts/generate-readme-ecosystem.js:5-17 | no category is mapped to Bridges |
| ReadmeEcosystem.SectionOf | scripts/generate-readme-ecosystem.js:32 | a project never lands in Bridges, and a category without an entry in the table lands in Infrastructure |
| ReadmeEcosystem.Link | scripts/generate-readme-ecosystem.js:33 | the link is the farcaster url when truthy, else the first link when truthy, else the github url when truthy, else the url |
| ReadmeEcosystem.BucketFacts | scripts/generate-readme-ecosystem.js:31-35 | every project's entry is in its own section's list, and a section's list holds only entries of projects in that section |
| ReadmeEcosystem.BridgesEmpty | scripts/generate-readme-ecosystem.js:5-35 | the Bridges list is always empty |
| ReadmeEcosystem.BucketsPartition | scripts/generate-readme-ecosystem.js:31-35 | the nine lists together hold exactly one entry per project |
| ReadmeEcosystem.ByNameOrder | scripts/generate-readme-ecosystem.js:52-54 | comparing entries by name is a total preorder when the name comparison is one |
| ReadmeEcosystem.EscapeBrackets | scripts/generate-readme-ecosystem.js:61 | every '[' of the escaped text follows a backslash, so the text never starts with '[' |
| ReadmeEcosystem.EscapeBracketsRoundTrip | scripts/generate-readme-ecosystem.js:61 | dropping the backslash before each '[' gives the description back |
| ReadmeEcosystem.SectionText | scripts/generate-readme-ecosystem.js:55-64 | a section block is its "### " heading and italic subtitle followed by the placeholder comment when the section is empty, and otherwise by the entries' lines one after another in list order |
| ReadmeEcosystem.GroupBySection | scripts/generate-readme-ecosystem.js:19-35 | the loop leaves every section's list equal to the entries of its projects, in data order |
| ReadmeEcosystem.WriteSections | scripts/generate-readme-ecosystem.js:50-65 | the loop writes the nine blocks in the fixed order, each with its list sorted by name |
| ReadmeEcosystem.GenerateReadme | scripts/generate-readme-ecosystem.js:31-104 | the section file holds the section text, and the README is the fixed header, that text and the fixed footer |
| ReadmeEcosystem.SectionSorted | scripts/generate-readme-ecosystem.js:52-54 | each listed section holds the same entries as its bucket, each as many times, in name order |
| ReadmeEcosystem.OutStartsWithBridges | scripts/generate-readme-ecosystem.js:37-58 | the section text starts with the Bridges block, which is always the placeholder |
| ClawdKitchen.CollapseRuns | scripts/fetch-clawd-kitchen.js:15 | the result holds only `[a-z0-9]` and '-', never two dashes in a row, and starts with '-' only when the input starts outside `[a-z0-9]` |
| ClawdKitchen.DropRunKeepsSlugChars | scripts/fetch-clawd-kitchen.js:15 | skipping a run of characters outside `[a-z0-9]` keeps every `[a-z0-9]` character of the input |
| ClawdKitchen.CollapseRunsKeepsSlugChars | scripts/fetch-clawd-kitchen.js:15 | the `[a-z0-9]` characters of the result are exactly those of the input, in the same order |
| ClawdKitchen.CollapseRunsIsCharwise | scripts/fetch-clawd-kitchen.js:15 | replacing each maximal run outside `[a-z0-9]` by one '-' agrees with a scan that keeps each `[a-z0-9]` character and writes '-' at the first character of each other run |
| ClawdKitchen.BaseShape | scripts/fetch-clawd-kitchen.js:12-16 | the slug base is made of `[a-z0-9]` runs joined by single dashes, with no dash at either end |
| ClawdKitchen.CollapseFixed | scripts/fetch-clawd-kitchen.js:15 | collapsing leaves dash-separated text that does not end with '-' unchanged |
| ClawdKitchen.BaseIdempotent | scripts/fetch-clawd-kitchen.js:12-16 | the base of a base is the base itself |
| ClawdKitchen.ShortId | scripts/fetch-clawd-kitchen.js:17 | the short id has at most six characters and no dash |
| ClawdKitchen.Slugify | scripts/fetch-clawd-kitchen.js:11-19 | the slug is never empty; with a short id it is the base, '-' and the short id (even when the base is empty); without one it is the base, or "clawd-project" when the base is empty |
| ClawdKitchen.EmptyBaseSlug | scripts/fetch-clawd-kitchen.js:18 | a name with nothing in `[a-z0-9]` together with an id gives a slug starting with '-' |
| ClawdKitchen.TruthyValues | scripts/fetch-clawd-kitchen.js:28 | filter(Boolean) keeps only truthy values, is empty exactly when none is truthy, and keeps a truthy first value first |
| ClawdKitchen.LinksOf | scripts/fetch-clawd-kitchen.js:28-31 | every link is truthy; there are none exactly when the github, vercel and token urls and the contract address are all falsy; a truthy github url comes first |
| ClawdKitchen.EntryOf | scripts/fetch-clawd-kitchen.js:27-40 | links are absent exactly when there are none; github is given exactly when the github url is truthy; the url is always truthy: the vercel url, else the github url, else the submissions page |
| ClawdKitchen.Entries | scripts/fetch-clawd-kitchen.js:21-44 | a failed response gives nothing; otherwise one entry per submission, in order, and none when the body has no submissions |
| JsonText.HexRoundTrip | scripts/generate-mdx-from-json.js:74 | a hexadecimal digit reads back as its value |
| JsonText.QuoteRoundTrip | scripts/generate-mdx-from-json.js:74 | decoding the text JSON.stringify writes between the quotes gives the string back |
| JsonText.JsonQuoteRoundTrip | scripts/generate-mdx-from-json.js:74 | reading a JSON-quoted value gives the string back |
| Sorting.SortBy | lib/founder.ts:134 | the sorted sequence is a permutation of the input |
| Sorting.SortBySorted | lib/founder.ts:134 | with a total preorder, the sorted sequence is in order |
| Sorting.SortByMembers | lib/founder.ts:134 | sorting keeps exactly the input's elements |
| Sorting.InsertStable | lib/founder.ts:134 | inserting an element into a sorted sequence keeps the relative order of the elements that tie with any given one |
| Sorting.SortByStable | lib/founder.ts:134 | the sort is stable: the elements that tie with any given one appear in the same relative order as in the input |
| Sorting.TopOfSorted | components/founders-pals-view.tsx:48-49 | the first n of a sorted sequence are in order, come from the input, and every element left out comes no earlier than the last one kept |
| Directory.FindBySlug | lib/data.ts:109 | a project is found exactly when some project's slug is the key, and it is the first such project |
| Directory.FindById | lib/data.ts:110 | a project is found exactly when some project's id is the key, and it is the first such project |
| Directory.GetProjectBySlugOrId | lib/data.ts:107-112 | a slug match anywhere wins over an id match; with no slug match the id search decides; nothing is found exactly when no project has the key as slug or id |
| Directory.GetProjectFirstMatch | lib/data.ts:107-112 | the project returned is the first slug match, else the first id match |
| Directory.Avatar | lib/data.ts:119-124 | the avatar has at most two characters |
| Directory.AvatarIsWordInitials | lib/data.ts:119-124 | the avatar is the first two word-initial characters of the name, upper-cased, whatever runs of spaces it holds (an empty word's `w[0]` joins as "") |
| Directory.FirstCharsSplitFrom | lib/data.ts:120-122 | splitting at spaces and joining each word's first character yields exactly the word-initial characters |
| Directory.FounderOf | lib/data.ts:114-126 | a founder card keeps the project's id, founder and founderTwitter, has github exactly when founderGithub is truthy, role "Builder", the project's name and an avatar of at most two characters |
| Directory.Founders | lib/data.ts:114-126 | one founder card per project, in project order, each the card of its project |
| ProjectsResolved.Override | lib/projects-resolved.ts:15-17 | `fm?.field ?? own`: the front matter's value when the file has the field, else the project's own |
| ProjectsResolved.Resolve | lib/projects-resolved.ts:12-19 | only logo, name and description can change; a project without front matter (looked up by slug, else id) is unchanged; each field the front matter gives wins; the lookup key is preserved |
| ProjectsResolved.ResolvedProjects | lib/projects-resolved.ts:10-20 | one resolved project per project, in order |
| ProjectsResolved.ResolveIdempotent | lib/projects-resolved.ts:10-20 | resolving an already resolved list changes nothing |
| FounderLib.FounderFrontmatterCache.GetAllFounderFrontmatterMap | lib/founder.ts:36-56 | the first call reads the directory (an empty map when it is missing) and keeps the map; a later call returns the kept map and reads nothing |
| FounderLib.FounderFrontmatterCache.GetAllFounderUsernames | lib/founder.ts:70-72 | the kept map's keys in insertion order, filling the cache on the first call |
| FounderLib.FounderFrontmatterCache.GetAllFoundersForPals | lib/founder.ts:86-135 | the pals list computed from the cached front matter, filling the cache on the first call |
| FounderLib.FrontmatterLookup | lib/founder.ts:43-53 | a username maps to the front matter of the last parsable .mdx file with that name, and is absent when there is none |
| FounderLib.FounderByUsername | lib/founder.ts:58-68 | no file (or no directory) gives null; a file gray-matter throws on is an error; otherwise the profile holds the username, the file's front matter and its content |
| FounderLib.ProfileAgreesWithMap | lib/founder.ts:36-68 | in a directory of unique names, the profile read by username has the front matter the batch map holds for that username, and there is no map entry when no profile is found |
| FounderLib.Handle | lib/founder.ts:95-99 | a listed handle is trimmed, non-empty and not "devfolio"; nothing else is listed |
| FounderLib.FindProject | lib/founder.ts:107-111 | the first project whose founderTwitter or some founder's twitter equals the username ignoring case; none exactly when no project matches |
| FounderLib.UsernamesMembers | lib/founder.ts:93-102 | a username is listed exactly when a project names it or the front-matter map has it |
| FounderLib.PalOf | lib/founder.ts:105-132 | an entry exists exactly when the username has front matter or a project; front matter gives its name (the username when name is falsy); without front matter city, bio and image are null |
| FounderLib.UnsortedFacts | lib/founder.ts:104-133 | before the sort no username has two entries, and every entry's username is listed |
| FounderLib.ListedIff | lib/founder.ts:104-133 | a username gets an entry exactly when it is listed and has front matter or a matching project |
| FounderLib.ByNameOrder | lib/founder.ts:134 | comparing entries by name is a total preorder when the name comparison is |
| FounderLib.PalsSorted | lib/founder.ts:134 | the output is a permutation of the unsorted entries, sorted by name |
| FounderLib.CollectUsernames | lib/founder.ts:93-102 | the Set gets the projects' handles in order, then the map's keys, each once |
| FounderLib.FoundersForPals | lib/founder.ts:104-134 | the loop over the usernames and the sort compute Pals |
| FoundersPalsView.MatchScore | components/founders-pals-view.tsx:13-23 | the loop computes Score: 0 for the same username, else 40 for the same city (ignoring case) plus 15 per shared lowercased tag, capped at 99 |
| FoundersPalsView.TagSet | components/founders-pals-view.tsx:17-18 | the lowercased tag set holds no tag twice |
| FoundersPalsView.ScoreSymmetric | components/founders-pals-view.tsx:13-23 | the score does not depend on the order of its two founders |
| FoundersPalsView.ScoreCountsCommonTags | components/founders-pals-view.tsx:15-22 | for different founders the score counts the lowercased tags they have in common, whatever their order or repetition |
| FoundersPalsView.SharedTagsMembers | components/founders-pals-view.tsx:19-21 | a tag is shared exactly when both founders carry it, lowercased |
| FoundersPalsView.Filtered | components/founders-pals-view.tsx:29-40 | a blank query keeps every founder; otherwise exactly the founders whose name, username, project, city or some tag contains the trimmed lowercased query, in their original order |
| FoundersPalsView.ByScoreOrder | components/founders-pals-view.tsx:48 | "higher score first" is a total preorder |
| FoundersPalsView.CandidatesFacts | components/founders-pals-view.tsx:45-47 | every candidate is another founder carrying its score against the selected one |
| FoundersPalsView.SimilarFacts | components/founders-pals-view.tsx:43-51 | at most five entries, none the selected founder, each with its score, best first, and every founder left out scores no higher than the last one listed |
| FoundersPalsView.NoSelectionNoSimilar | components/founders-pals-view.tsx:42-44 | without a selected founder the similar list is empty |
| FoundersPalsView.ScoreOthers | components/founders-pals-view.tsx:45-47 | the loop pairs every founder other than the selected one with its match score, in list order |
| FoundersPalsView.SimilarFounders | components/founders-pals-view.tsx:42-51 | filter, score, stable sort and cut to five compute Similar |
| ProductGrid.Filtered | components/product-grid.tsx:95-104 | the grid shows exactly the projects matching the category ("All" or equal), the batch ("All Batches" or equal) and the search text (empty, or contained in the lowercased name, description or founder), in their order |
| ProductGrid.DefaultsShowAll | components/product-grid.tsx:91-104 | with the initial selections every project is shown |
| ProductGrid.ExactCategoryAndBatch | components/product-grid.tsx:96-97 | away from "All" and "All Batches" a shown project has exactly the chosen category and batch |
| ProductGrid.CountLabel | components/product-grid.tsx:205 | the label starts with the count in decimal |
| ProductGrid.CountLabelPlural | components/product-grid.tsx:205 | the noun is plural exactly when the count is not one |
| BotText.FirstToken | telegram-bot/src/index.ts:50 | `.split(/\s/)[0]` is the longest whitespace-free prefix |
| BotText.NormalizeTwitter | telegram-bot/src/index.ts:49-52 | the result is the longest whitespace-free prefix of the trimmed input without one leading '@' |
| BotText.NormalizeHandle | telegram-bot/src/index.ts:49-52 | a handle without whitespace or a leading '@' comes back unchanged, with or without an '@' in front |
| BotText.TwitterProfileAnswer | telegram-bot/src/index.ts:217 | an answer mentioning twitter.com or x.com is kept as sent, any other is normalised as a handle |
| BotText.TagList | telegram-bot/src/index.ts:186 | every tag is non-empty and trimmed |
| BotText.TagListNoComma | telegram-bot/src/index.ts:186 | no tag holds a comma |
| BotText.CategoryOf | telegram-bot/src/index.ts:167-168 | a category found is one of MAIN_CATEGORIES and equals the trimmed answer ignoring case |
| BotText.RegexTeammate | telegram-bot/src/index.ts:67-69 | a line matching `^(.+?)\s+@?(\w+)\s*$` yields a handle of word characters only |
| BotText.AtTeammate | telegram-bot/src/index.ts:70-75 | the '@' fallback yields a non-empty name and a non-empty handle without whitespace |
| BotText.Lines | telegram-bot/src/index.ts:64 | every line kept is non-empty and starts with no whitespace |
| BotText.ParseLineFilled | telegram-bot/src/index.ts:66-75 | on a trimmed line every teammate found has a name and a handle |
| BotText.TeammatesFilled | telegram-bot/src/index.ts:63-78 | every teammate parseTeammates returns has a non-empty name and a non-empty handle without whitespace |
| BotText.ParseTeammates | telegram-bot/src/index.ts:63-78 | the loop computes ParsedTeammates |
| BotText.TeammateLineRoundTrip | telegram-bot/src/index.ts:67-69 | the format the bot asks for, "Name @handle", is read back as exactly that name and handle |
| TelegramBot.StepIndex | telegram-bot/src/index.ts:16-27 | the eleven steps are numbered 0 to 10 in conversation order |
| TelegramBot.Next | telegram-bot/src/index.ts:120-239 | before the last step a message moves the flow to the very next step, or, at a step that checks its answer, leaves the flow unchanged; at the last step the flow stays there and the answers are received |
| TelegramBot.ProjectUrlChecked | telegram-bot/src/index.ts:127-136 | an invalid project link leaves the flow unchanged; a valid one is stored and the flow moves to the description |
| TelegramBot.OptionalUrlSteps | telegram-bot/src/index.ts:148-164 | for the logo and GitHub answers "/skip" in any case stores null, a valid URL is stored, anything else is asked again |
| TelegramBot.CategoryChecked | telegram-bot/src/index.ts:166-180 | the flow moves on only for the name of a main category in some case, and then stores its canonical spelling |
| TelegramBot.NextKeepsFilled | telegram-bot/src/index.ts:120-239 | every step keeps the answers of the steps already passed |
| TelegramBot.SubmissionOf | telegram-bot/src/index.ts:244-261 | the submission is pending, has no batch and carries the Telegram user id and username |
| TelegramBot.SubmissionCarriesAnswers | telegram-bot/src/index.ts:241-261 | a flow that reached the teammates step sends every required answer it collected, and the teammates parsed from the last message (none for "/skip") |
| TelegramBot.Advance | telegram-bot/src/index.ts:118-239 | the chain of step handlers computes Next |
| TelegramBot.Bot.constructor | telegram-bot/src/index.ts:34 | the flow map starts empty, so every stored flow (none) has the answers of the steps it has passed |
| TelegramBot.Bot.GetOrCreateFlow | telegram-bot/src/index.ts:36-43 | an existing flow is returned and kept; otherwise a new flow at the first step is stored and returned; every stored flow keeps the answers of the steps it has passed |
| TelegramBot.Bot.ClearFlow | telegram-bot/src/index.ts:45-47 | the user's flow is removed and no other; every remaining flow keeps the answers of the steps it has passed |
| TelegramBot.Bot.Start | telegram-bot/src/index.ts:86-99 | /start and /submit create a flow for a user without one and leave a flow under way as it is; no user id changes nothing; stored flows keep the answers of the steps they have passed |
| TelegramBot.Bot.Cancel | telegram-bot/src/index.ts:101-105 | /cancel removes the user's flow; no user id changes nothing; stored flows keep the answers of the steps they have passed |
| TelegramBot.Bot.OnText | telegram-bot/src/index.ts:107-277 | a message from no user, from a user without a flow or with blank text changes nothing; at the teammates step the submission is sent and the flow ends even when the insert fails; otherwise the flow is replaced by the next one; a sent submission carries the product name, project link, description, category and founder answers of the stored flow, and every stored flow keeps the answers of the steps it has passed |

## Left out

- Network and HTTP are not modelled. This covers the Devfolio search and profile requests, the ClawdKitchen `fetch`, the Supabase client and its upserts, and everything in `telegram-bot/src/supabase.ts`. Responses and fetch results are given as inputs, and the registry and seed scripts stop at the rows they would upsert.
- The Telegraf launch, the bot's health server and its reply texts are not modelled. Replies are named by what they ask for rather than spelled out.
- HTML scraping is not modelled: `extract_github_url`, `extract_twitter_handle`, `fetch_profile` and the `__NEXT_DATA__` regular expression. The extractor receives the parsed payload, and each page's outcome is a parameter.
- File I/O, `json.load`/`JSON.parse`, gray-matter parsing and `matter.stringify` are not modelled. File contents, front matter and directory listings are inputs. A file written by `generate-project-mdx.ts` is kept as its text together with the edit id it carries, and is not parsed back.
- `path.join`, `mkdir` and `glob` are left out. `unlink` becomes the set of files that remain.
- `lib/project-mdx.ts` is not part of this model. The project front-matter map that `lib/projects-resolved.ts` reads (`getAllProjectMdxFrontmatterMap`) is a parameter.
- `scripts/run-all-devfolio.js` and the scripts' `time.sleep` pacing are left out: they only run the other scripts.
- Randomness, time and foreign checks are parameters: `Math.random`, the clock, `new URL`/`isValidUrl` and the outcome of `insertSubmission`. `String.prototype.localeCompare` is an ordering assumed to be a total preorder.
- Python's `str.title()` is modelled on ASCII letters only (`Strings.TitleCase`). A non-ASCII letter is not re-cased and counts as a non-letter, so it starts a new run of letters.
- JavaScript strings are modelled as sequences of characters, whereas JavaScript indexes UTF-16 code units. For text outside the Basic Multilingual Plane, index 0 and `.slice` here take whole characters where JavaScript can cut a surrogate pair in half. This affects `Directory.Avatar`/`Directory.FirstChars` (`w[0]`, lib/data.ts:121), `ClawdKitchen.ShortId` (`.slice(0, 6)`, fetch-clawd-kitchen.js:17), `MdxFromJson.EditId` (`.slice(0, 8)`, generate-mdx-from-json.js:62) and `ReadmeEcosystem.FirstLink` (`p.links[0]` of a string, generate-readme-ecosystem.js:33).
- Whitespace, case mapping and "alphanumeric" are the ASCII versions: space, tab, newline, vertical tab, form feed and carriage return are whitespace. JavaScript's `trim` and `\s` agree on that ASCII text. Python's `strip()`, `split()` and `re`'s `\s` also count the separators `\x1c`-`\x1f` as whitespace, and all of them count the Unicode spaces; neither is modelled. Non-ASCII letters are not lowercased or counted as alphanumeric.
- Python's `repr()` is modelled for the characters up to U+00FF. Characters above that are kept as they are, including those Python would escape. Only the decimal forms of `int()` of a string are modelled: other bases, other Unicode digits and `float()` are not.
- Numbers in JSON and front matter are integers. `prize_winnings_amount = float(...)` and other numbers with a fractional part are not modelled.
- JavaScript prototype keys are not modelled: `categoryToSection["constructor"]` behaves here like a missing key.
- `String.prototype.replace` patterns with `$` in the replacement are left out. `{url}` is replaced by the url taken literally.
- Crashing paths are modelled as values. A field a script would call a string method on while it is missing or of another type (`name.trim()` on undefined, `edit_id?.trim()` on a number) reads as "". A value that would crash while a list is being collected is left out of that list instead: `infer_category` calling `.lower()` on a name that is not a string drops that hashtag (`TransformToData.CategoryTagName`). A counter that `int()` rejects reads as 0. Founders or tags that are not lists read as empty. No run is modelled as aborting there.
- In the bot, a state field that is unset and one set to null both read as None.
- `Str()` reads any value that is not a string as "", including truthy numbers, lists and mappings. Python's `or` and a template literal would print such a value instead. This affects `ProjectMdx.NewProjectOf` (a numeric url, github or farcaster), `TransformToData.ProjectId` (a numeric uuid, `src.get("uuid") or str(i + 1)`, transform_to_data.py:185) and `TransformToData.BatchName` (a truthy `hackathon.get("name")` that is not a string, transform_to_data.py:112).
- The bot's flow object is updated through an alias that `userFlows` also holds. The model reassigns the map entry instead.
- TelegramBot.Bot.OnText: message handling is modelled as one atomic step. The handler awaits `insertSubmission` (index.ts:263) before `clearFlow`, and other updates handled during that wait are not captured. A second message from the same user in that window would send a second submission, and a `/cancel` then `/start` there would create a flow that `clearFlow` then deletes.
- The literal example lemmas about the full keyword table are not modelled, for example `["nft"]` giving Gaming. Only `TransformToData.CategoryExampleEmptyTag` is kept. All rules are proved for any keyword table, and `DevfolioTables` holds the script's constants.
- Markup outside the data contracts is not modelled: the site's UI components, maps, animation and layout.

## Findings

| source | as written | input that shows it | evidently intended | confidence | as-written member | corrected member |
|---|---|---|---|---|---|---|
| scripts/devfolio-scraper/fetch_devfolio_profile_json.py:299-311 | the clean-up deletes every profile file whose lowercased name is a Twitter handle in profile_links.json, including the canonical profile just written for a founder whose Devfolio username is that same handle | projects `[{"founderTwitter": "alice"}]`, profile_links `{"alice": {"twitter": "Alice"}}`: alice.mdx is written and then deleted | delete only files keyed by a handle that is not itself a Devfolio username, as the comment "we now use Devfolio username only" says | high; not executed | ProfileMdx.CleanupDeletesCanonicalProfile | ProfileMdx.FixedCleanupKeepsWrittenProfiles |
| scripts/generate-project-mdx.ts:34-56 | `lines.filter(Boolean)` drops the "" separator lines along with the nulls, and the link lines are appended with no line break, so "## Links" and the first link share a line and the sections lose their blank lines | any project, for example slug "x" and no links: the text contains `## Links- [Devfolio](https://base-batch-india.devfolio.co)` | drop only the null lines and keep "## Links" on its own line, followed by a blank line and the link list | high; not executed | ProjectMdx.LinksHeadingRunsIntoFirstLink | ProjectMdx.FixedLinksOnTheirOwnLines |

The as-written definitions are `ProfileMdx.IsDuplicateProfile` and `ProjectMdx.BuildNewMdxAsWritten`. The corrected ones are `ProfileMdx.IsDuplicateProfileFixed` and `ProjectMdx.BuildNewMdx`.

The rest of the model uses the corrected definitions:

- `ProfileMdx.FilesAfterRun` and `ProfileMdx.FilesAfterRunKeepWritten` use the corrected clean-up.
- `ProjectMdx.NewFile` writes `ProjectMdx.BuildNewMdx`.
