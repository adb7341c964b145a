# Verified model of the blog engine

This project models the stateful parts of the blog engine and proves what they keep, with step failures, restarts and
interleavings included. To verify it: `dafny verify dfyconfig.toml`.

**The seeder** (`SeedWorld`, `SeedSettled`, `BlogSettled`, `SeedRun`, `SeedStill`, `SeedContents`, `Seeder`,
`Restarting`, `Interleaved`, `Lifetimes`, `Published`, over the tables of `Database`). A start of the process walks a
file tree and changes three stores with no transaction. Every file, database and bucket step of a run either succeeds,
is not made, or is made with its answer lost; a run that stops is one whose later steps are all not made. Whatever
fails, what a run does is a sequence of effects, each the first stages of seeding one post or one manifest
(`SeedRun.Replay`); the methods of `Seeder` return that sequence as a ghost result, and what every history keeps is
proved about sequences. A file carries an inode, so that it keeps its identity when it moves, and the store carries a
history variable that records from which file each seeded row was made; nothing reads either. What a start needs is
that tree and rows are in order, which statements on blogs by others keep too: `Lifetimes` is about starts and such
statements in any order. A run is *smooth* when no step it made failed and no identifier it drew was taken by a row
where its file could have been given one: what a run without failures achieves is stated for the runs that end
smoothly, and a run is smooth when no step fails and as many draws as there are loose files are new and differ, which
`Restarting.Example` shows to be met. Listings come in any order. Front matter, YAML, dates and the frontmatter slug
are functions of the text.

**The image pipeline** (`Keys`, `Assets`, `Serve`, `Processor`, `Pipeline`, `Images`). Obfuscated paths, the in-flight
keys and the queue of 25 are machines over the steps of any number of threads; `Pipeline` puts them together with
requests, the bucket and restarts. `Images` holds the same parts as code: the uploader of sources, a worker's job and
the asset handler. SHA-1, path cleaning, UUID parsing and decode-resize-encode are functions; that two paths collide
under UUID v5 (section 5.5 of RFC 9562) is never ruled out, but named where a property needs it.

**The rate limiter** (`Limiter`; the library's bucket is a level that a rate refills, over the reals), **the country
statistics** (`GeoStats`) and **the post cache** (`PostCache`): runs over a clock that does not go back, and for the
cache the read-write lock with any number of calls.

**Text and rows**: `Slug` (normalisation against the validators' grammar), `PublicId` (rejection sampling), `Links` (the
home page's pages and links), `Markdown` (the two passes over a document, and the image URLs that lead back to the
source).

Where the code does not do what its names and comments suggest, with the exact condition:

- The worker deletes `<id>_<w>.webp` from the in-flight keys, Enqueue stores `<id>_<w>`. So the keys in flight are those
  of the jobs under way if and only if no job has finished yet (`Processor.ExactIff`), and a job that failed is not
  sent again in the life of the process (`Processor.NeverSentAgain`; such runs exist, `Processor.FinishedJobStays`). If
  it left no variant, no request for it is a HIT until the process restarts (`Pipeline.NoHitUntilRestart`).
- Eviction is invisible if and only if `burst <= 180 * rate` (`Limiter.EvictionInvisibleIff`); the limiters of
  `cmd/blogengine/main.go:265-269`, 20 with a burst of 50 and 1 with a burst of 3, meet it.
- Seeding a manifest loses the file that lies where the manifest goes, if and only if that is another file and the move
  is made: for a new blog before its row is there, for a known one after it is updated from a manifest elsewhere
  (`BlogSettled.ManifestReplaced`; both happen, `Restarting.ManifestLost`).
- A post whose upload failed is never uploaded again: a row is complete after any history if and only if the one call
  that inserted it got to its last stage, or to all but the upload of bytes the bucket held already
  (`SeedRun.RowCompleteIff`). The same goes for runs stopped after the insert or the folder, and for lost answers
  (one such row: `Lifetimes.RowLeftIncomplete`).
- With blogs renamed, deleted and made again in between, a file with a row may be given a second one, exactly while it
  is loose and its folder's slug names a blog that none of its rows belong to and that has no other post of its slug
  (`Interleaved.SecondRowIff`; it happens to any loose file whose run stops after the insert,
  `Interleaved.SecondRowHappens`, and from a fresh database in five events, `Lifetimes.OneFileTwoRows`).
- A second run without failures changes nothing if and only if the first has left no manifest with work
  (`Restarting.SeedTwice`). Work can be left where a folder is not named by its own manifest: a blog.yaml beside the
  blog.yml of another blog is looked at only once that one has been moved away (`BlogSettled.ForeignManifestHides`).
- A source directory that is not given as an absolute path, such as the default of `internal/config/config.go:89`, is
  never synced: making the first image's path relative to it fails and ends the walk (`Images.SyncAssets`).
- Pages of the home page fetched one by one show every post once if no two posts of the feed have one date; the query
  leaves the order of others open (`Links.CallsTile`, `Links.OneFeedIff`).
- A link finds its post alone unless another post of the blog is named by it the other way round
  (`Links.LinkFindsItsPost`, `Links.ConfusedExists`), and one image with no destination leaves the local images after
  it as they are (`Markdown.RewrittenIffReached`, `Markdown.EmptyImageStops`).

## Model

| member | source | states |
|---|---|---|
| `Seeder.Seeder.Seed` | internal/seeder/seeder.go:53-59 | From any tree and rows in order, wherever the run fails or stops: what it did is a sequence of effects, tree and rows are in order, and the invariant and everything in Kept are kept where the invariant held. A smooth run completes every new row, leaves no post with work, settles the manifests if blog folders are named by them, and changes nothing if and only if no manifest that is looked at and no post has work. Without failed steps a run is smooth if its draws are fresh or nothing has work, and the manifests are settled whatever is drawn. |
| `SeedRun.RunKeeps` | internal/seeder/seeder.go:53-59 | Every history keeps the tree and index invariant, all post files, rows and folders; records each new row with its file; moves a file at most once, and never one that has a row; leaves earlier rows' objects alone; keeps blog folders named by their own manifests. |
| `SeedRun.RunInOrder` | internal/seeder/seeder.go:53-59 | Whatever the rows were made from, every history keeps the tree and the indexes in order, users, post rows and folders, lets no post file come to lie outside the post folders, and keeps blog folders named by their own manifests. |
| `SeedRun.FileFate` | internal/seeder/seeder.go:230-318 | After any history from a fresh table a post file is at exactly one place, its own path or its row's folder; the rows of the posts table made from it are at most one, and that row is of the file's blog and slug. It says what the file's front matter does. |
| `SeedRun.NoMoreRowsThanFiles` | internal/seeder/seeder.go:230-318 | However often it starts and fails, the seeder never makes more rows than there are post files. |
| `SeedRun.RowFate` | internal/seeder/seeder.go:311-315 | Over any history a row keeps exactly its object, present or absent, and is complete afterwards if and only if it was before. |
| `SeedRun.RowCompleteIff` | internal/seeder/seeder.go:292-315 | After any history a new row has its file, key and object if and only if the call that inserted it reached its last stage, or all but an upload of what the bucket held. |
| `SeedRun.StageCompleteIff` | internal/seeder/seeder.go:292-315 | The same for the inserting call alone, stage by stage. |
| `Restarting.Restarts` | internal/seeder/seeder.go:53-124 | Any number of starts, each with any pattern of failed, lost or missing steps, are one history of effects, and keep all that histories keep. |
| `Restarting.Repair` | internal/seeder/seeder.go:96-122 | From a tree whose folders are named by their own manifests, any stopped or failing runs followed by one run without failed steps leave the manifests settled: each that is loose or first in its folder (a blog.yaml beside a blog.yml is never looked at), is valid, has its owner and could have its row, has it. |
| `Restarting.SeedTwice` | internal/seeder/seeder.go:53-124 | With no failed step and fresh draws for the loose files in the first run, and whatever the second run draws: the second leaves rows, files, folders and bucket as the first did if and only if the first has left no manifest with work, as it does where folders are named by their own manifests. The first has completed every row it made, and left no post with work. |
| `Restarting.Example` | internal/seeder/seeder.go:203-318 | A tree, rows and identifiers that meet all of this; the loose post ends up with its row, its folder and its object. |
| `Restarting.ManifestLost` | internal/seeder/seeder.go:155-200 | Worlds, one with a new and one with a known blog, in which seeding a manifest loses the one in its folder. |
| `Interleaved.OneRowPerBlog` | migrations/000005_add_posts_metadata.up.sql:35-36 | With blogs created, renamed and deleted in between, two rows of one file are never of the same blog. |
| `Interleaved.SecondRowIff` | internal/seeder/seeder.go:230-318 | Exactly when a loose file with a row is given a second one. |
| `Interleaved.FolderedFileKeepsRow` | migrations/000005_add_posts_metadata.up.sql:7 | A file that lies in a post folder is never given another row. |
| `Interleaved.SecondRowHappens` | internal/storage/sqlite/blogs.go:197-218 | A run stopped after the insert of any loose file, its blog deleted and made again under a new id: seeding the file again with another identifier is allowed, and it still has its first row. |
| `Interleaved.HistoryKeeps` | internal/storage/sqlite/blogs.go:124-218 | Each row keeps its file, its slug and the indexes through all such histories. The row says what its file does, and its author is its blog's owner. |
| `Interleaved.FreshHistory` | internal/seeder/seeder.go:44-59 | Any tree beside a fresh database is a start of such histories. |
| `Lifetimes.Live` | internal/seeder/seeder.go:53-59 | Starts with any failures, and any creates, renames and deletes of blogs between them, are one history of effects and just these statements, and keep what such histories keep; if it ends with a start in which no step fails, the manifests are settled. |
| `Lifetimes.OneFileTwoRows` | internal/storage/sqlite/blogs.go:197-218 | From a fresh database, five events after which one post file has two live rows: the blog made, the post's seeding stopped after the insert, the blog deleted and made again, the post seeded. |
| `Lifetimes.RowLeftIncomplete` | internal/seeder/seeder.go:292-315 | The row of a seeding stopped after the insert, in a concrete tree, is not complete after any later runs. |
| `Seeder.Seeder.SeedPosts` | internal/seeder/seeder.go:203-228 | A smooth run leaves every blog folder settled and every new row complete, though `existing` is read once beforehand; a settled tree is unchanged; it draws at most once for each loose file. |
| `Seeder.Seeder.SeedPostsForBlog` | internal/seeder/seeder.go:332-346 | The loose pass, then the structured pass over the folders the first has made: smoothly, both settled and nothing outside the folder touched. |
| `Seeder.Seeder.SeedLoosePosts` | internal/seeder/seeder.go:348-364 | Smoothly, every loose file left is one the seeder refuses, and rows made meanwhile are complete; a failed listing is an empty one. |
| `Seeder.Seeder.SeedStructuredPosts` | internal/seeder/seeder.go:366-402 | Smoothly, every post folder is known or refused; loose files stay refused; nothing is drawn. |
| `Seeder.Seeder.SeedFolder` | internal/seeder/seeder.go:371-400 | One post folder: the name and single-file tests, and that a stale set of known ids does no harm. |
| `Seeder.Seeder.SeedPost` | internal/seeder/seeder.go:230-318 | Whatever fails, nothing or the first stages of insert, make folder, move, upload; smoothly all of them, or none exactly when the file is refused or its id is known. The one row it inserts is of the folder's blog, by that blog's owner, and has the front matter's title, slug, description, flags, and a date exactly if that gives one. |
| `Seeder.Seeder.InsertRow` | internal/seeder/seeder.go:292-295 | A row is inserted only if the indexes allow it, even when the answer is lost, and is remembered with its file; smoothly it is inserted exactly when it is allowed. |
| `Seeder.Seeder.SeedBlogs` | internal/seeder/seeder.go:61-124 | Smoothly: with folders named by their own manifests every manifest is settled; and nothing changes if and only if no manifest that is looked at has work, while any change shows in a file that has left its place for good or in a blog's row. |
| `Seeder.Seeder.SeedAllLooseManifests` | internal/seeder/seeder.go:70-96 | Smoothly, every loose manifest of both extensions is settled, and every recorded slug has its row, with which its folder's manifest agrees. |
| `Seeder.Seeder.SeedFolderManifests` | internal/seeder/seeder.go:104-122 | Smoothly, every folder not recorded before ends up agreeing with its first manifest. |
| `Seeder.Seeder.SeedBlog` | internal/seeder/seeder.go:126-201 | Whatever fails, nothing or the first stages for a known blog (row, folder, move) or a new one (folder, move, row); at most one row is new or retitled, and says what the manifest does. Smoothly all stages, with the manifest's row in the end, or an error and no change of rows exactly when the rows do not accept the manifest. |
| `SeedContents.EffectFollows` | internal/seeder/seeder.go:242-295 | However far seeding a post gets: its row is the folder's blog's, by its owner, and says what the front matter does, flag by flag; no other row changes. |
| `SeedContents.PostableIff` | internal/seeder/seeder.go:230-268 | A row is worked out exactly for files with front matter and a title, in the folder of a live blog, whose date, if any, is an RFC 3339 timestamp or a day. |
| `SeedContents.StageFollows` | internal/seeder/seeder.go:155-200 | However far seeding a manifest gets: a new blog has the manifest's owner, title, slug, description, visibility (public if none), registration (open if none) and limit; a known one of that owner gets title and description and keeps the rest; all other rows stay. |
| `SeedContents.AcceptedHasRow` | internal/seeder/seeder.go:155-200 | An accepted manifest has that row in the end; one that is not changes none. |
| `SeedContents.FollowableIff` | internal/seeder/seeder.go:126-153 | A manifest is followed exactly if it has a title with a valid slug and an owner who is a user. |
| `Published.InFeedIff` | internal/storage/sqlite/posts.go:70-82 | After any seeding and any statements on blogs, a seeded post is on the home page exactly when its file is listed and dated no later than now, and its blog is there and public. |
| `Published.UnlistedIsNeverShown` | internal/storage/sqlite/posts.go:141-153 | A post from a file that is not listed or has no date is never on the home page, and no link leads to it. |
| `Published.PageShowsListed` | internal/storage/sqlite/posts.go:65-89 | Every seeded post on a page of the home page is one whose file asks to be shown by now. |
| `Seeder.Seeder.UpdateExisting` | internal/seeder/seeder.go:155-177 | The branch of a known blog stops at one of its stages. |
| `Seeder.Seeder.CreateNew` | internal/seeder/seeder.go:180-200 | The branch of a new blog stops at one of its stages, the row last. |
| `SeedWorld.FreshStart` | internal/seeder/seeder.go:44-59 | Any tree beside a fresh database satisfies what every run keeps. |
| `SeedWorld.PostStageKeeps` | internal/seeder/seeder.go:292-315 | Wherever seedPost stops, the invariant holds and no post file is lost. |
| `SeedWorld.BlogStageKeeps` | internal/seeder/seeder.go:155-200 | Wherever seedBlog stops, the invariant holds and no post file is lost. |
| `SeedWorld.NoSecondRow` | migrations/000005_add_posts_metadata.up.sql:35-36 | A file that has a row is refused a second one by the live (blog, slug) index, whatever id is drawn. |
| `SeedWorld.EvolvesTrans` | internal/seeder/seeder.go:53-59 | What is kept by two steps or runs is kept by both. |
| `SeedSettled.FullStageProgress` | internal/seeder/seeder.go:277-315 | A post seeded to the end has its file, key and object, and no earlier complete row loses any of its own. |
| `SeedSettled.FullStage` | internal/seeder/seeder.go:277-315 | The last stage, field by field: the file at its home, the key from the blog folder and the id, the object equal to the body. |
| `SeedSettled.LoosePassStep` | internal/seeder/seeder.go:355-362 | One turn of the loose loop settles its file and unsettles none. |
| `SeedSettled.FolderPassStep` | internal/seeder/seeder.go:371-400 | One turn of the folder loop settles its folder and unsettles none. |
| `BlogSettled.ValidManifestHasRow` | internal/seeder/seeder.go:96-122 | In a settled tree every manifest that is loose or first in its folder, is valid, has its owner and could have its row, has it. |
| `SeedRun.StageKeepsNames` | internal/seeder/seeder.go:155-200 | However far seeding a manifest gets, every folder stays named by its own first manifest. |
| `BlogSettled.ManifestReplaced` | internal/seeder/seeder.go:155-200 | Over both branches and all stages, a file loses its place if and only if it lies where the manifest goes, is another one, and the move is made. |
| `BlogSettled.ForeignManifestHides` | internal/seeder/seeder.go:109-121 | A blog.yaml beside another blog's blog.yml is first looked at once the blog.yml is seeded, and then if and only if that is moved. |
| `SeedStill.NoWorkNoChange` | internal/seeder/seeder.go:155-200 | Seeding a manifest that cannot be followed, or lies in its blog's folder and says what its row says, changes nothing. |
| `SeedStill.WorkShows` | internal/seeder/seeder.go:155-200 | Seeding any other manifest moves a file away from a place its text does not name, or changes the row of its own folder. |
| `SeedStill.LeftForGood` | internal/seeder/seeder.go:155-200 | A file that has left such a place never comes back to it. |
| `SeedStill.FolderVisit` | internal/seeder/seeder.go:104-122 | One turn of the folder loop: unchanged so far exactly if no folder visited has work, and no change is undone by a later folder. |
| `BlogSettled.BlogsStaySettled` | internal/seeder/seeder.go:203-228 | Seeding posts unsettles no manifest. |
| `BlogSettled.FolderBlogStep` | internal/seeder/seeder.go:104-122 | One turn of the folder loop settles its manifest and unsettles none, loose or structured. |
| `Database.Store.CreateBlog` | internal/storage/sqlite/blogs.go:23-44 | Succeeds exactly when the validators, the owner's foreign key and the live slug index allow it; adds that row and changes nothing else. |
| `Database.Store.GetBlogBySlug` | internal/storage/sqlite/blogs.go:107-122 | Fails exactly on an invalid slug, and finds the live blog of the slug if there is one. |
| `Database.Store.UpdateBlog` | internal/storage/sqlite/blogs.go:124-143 | Succeeds exactly for a live blog of this owner with a valid, free slug. |
| `Database.Store.DeleteBlog` | internal/storage/sqlite/blogs.go:197-218 | Succeeds exactly for a live blog of this owner, which is then no longer live. |
| `Database.Store.CreatePost` | internal/storage/sqlite/posts.go:30-62 | Succeeds exactly when there is an id, the validators pass, the blog is live and both unique indexes allow the row. |
| `Database.ReachableIndexed` | migrations/000004_add_blogs_table.up.sql:39-40 | After any creates, renames, deletes and inserts: live slugs are unique, live (blog, slug) pairs are unique, every post key is its blog's slug at the time and its id. |
| `Database.ApplyKeepsIndexed` | migrations/000005_add_posts_metadata.up.sql:7-36 | Every statement keeps the indexes, including a slug freed and taken again. |
| `Database.FindBlogUnique` | internal/storage/sqlite/blogs.go:107-122 | The lookup by slug means one blog. |
| `Database.OnlyOwnersChange` | internal/storage/sqlite/blogs.go:124-218 | A blog's row is changed by its owner's statements alone, while it is live, and in nothing but what they name; no statement changes a post's row or takes any row away. |
| `Database.ReachableFits` | internal/storage/sqlite/posts.go:163-184 | In every reachable database slugs, titles, descriptions, visibility, registration and encryption are as the validators demand, and every row refers to users and blogs that are there. |
| `Keys.PostKeysDistinct` | internal/storage/sqlite/posts.go:186-205 | In every reachable database no two posts share an object key, whatever ids they were given. |
| `Keys.PostKeysApart` | internal/storage/sqlite/posts.go:186-205 | A post with a generated id never has the key of an image source or a variant. |
| `Keys.FamiliesApart` | internal/content/sync.go:34-48 | Keys of post bodies, image sources and variants are three disjoint families. |
| `Keys.SourceKeyIff` | internal/content/sync.go:26-37 | The files uploaded are exactly those whose name ends in a dot and jpg, jpeg, png or gif, in capitals or small letters. |
| `Keys.FlightKeyInjective` | internal/content/webp_processor.go:160 | An in-flight key names one id and one width, for any id. |
| `Keys.VariantKeyInjective` | internal/content/webp_processor.go:98 | A variant key names one id and one width, for any id. |
| `Keys.ReleaseMissesFlight` | internal/content/webp_processor.go:76-79 | The key the worker deletes is never a key that Enqueue has stored. |
| `Assets.EntriesStay` | internal/content/assets.go:33-60 | In every interleaving, if the paths in use do not collide, the two maps are mutual inverses and no entry ever changes or vanishes. |
| `Assets.InverseIff` | internal/content/assets.go:56-57 | The maps are mutual inverses if and only if no two entered paths collide. |
| `Assets.ObfuscateRoundTrip` | internal/content/assets.go:33-92 | Calls for paths of one cleaned form return one UUID, at any time; without collisions it leads back to that form and to no other. |
| `Assets.RunKeepsInv` | internal/content/assets.go:40-59 | Every state of every interleaving has the UUID v5 of the cleaned path in both maps. |
| `Assets.V5IsUuid` | internal/content/assets.go:47 | The UUID of a path has version 5 and the RFC's variant over the digest's other bits, so it is never the nil UUID that the getters refuse. |
| `Assets.HexReadsBack` | internal/handlers/assets.go:67 | The text of a UUID has two hexadecimal digits a byte, the high one first. |
| `Assets.AssetManager.Obfuscate` | internal/content/assets.go:33-60 | Refuses exactly the empty path; otherwise enters the cleaned path once and returns its UUID v5. |
| `Assets.AssetManager.GetRelativePath` | internal/content/assets.go:79-92 | The entered path of a known UUID, an error for the nil one and unknown ones. |
| `Serve.KeyRoundTrip` | internal/handlers/assets.go:37-65 | The key made of a UUID and a supported width is parsed back to both. |
| `Serve.AcceptedKey` | internal/handlers/assets.go:37-65 | The accepted keys are exactly those with one underscore, between a UUID and a number that is a supported width. |
| `Serve.AtoiIff` | internal/handlers/assets.go:49-53 | The widths that can be read are the 64-bit numbers in decimal digits, after a sign or none. |
| `Serve.BadRequestKey` | internal/handlers/assets.go:61-65 | A bad request is answered exactly to a key that has that form but for the UUID. |
| `Processor.RunKeepsInv` | internal/content/webp_processor.go:67-178 | In every interleaving no id and width has two jobs pending, queued or running, the queue holds at most 25, and all their keys are in flight. |
| `Processor.FirstInFirstOut` | internal/content/webp_processor.go:67-75 | In every interleaving a worker takes, of the jobs that wait, the one that was sent first. |
| `Processor.EnqueueOutcome` | internal/content/webp_processor.go:159-178 | An Enqueue that returns an error leaves no key and no job; one that returns nil found the key or has sent its job. |
| `Processor.ExactIff` | internal/content/webp_processor.go:67-82 | In-flight keys are exactly those of the jobs under way if the worker releases the stored key; as written, if and only if no job has finished. |
| `Processor.IdleInFlight` | internal/content/webp_processor.go:67-82 | Once idle nothing is in flight with the stored key released; as written, every finished job's key is. |
| `Processor.NeverSentAgain` | internal/content/webp_processor.go:159-165 | As written an id and width are sent once per process; after that job every Enqueue for it does nothing. |
| `Processor.FinishedJobStays` | internal/content/webp_processor.go:67-82 | A run of one job after which its key stays in flight though nothing is under way for it. |
| `Processor.Processor.Enqueue` | internal/content/webp_processor.go:159-178 | An undisturbed call: nil if in flight or queued now, else no trace. |
| `Processor.Processor.Receive` | internal/content/webp_processor.go:72-75 | Jobs leave the queue in order. |
| `Processor.Processor.Release` | internal/content/webp_processor.go:76-79 | Deletes the variant's key. |
| `Pipeline.EveryHitIsTheVariant` | internal/handlers/assets.go:67-87 | In every interleaving and over restarts, every HIT is the variant, at the asked width, of the source whose cleaned path has the asked id, then and later. |
| `Pipeline.HitRefinesMiss` | internal/handlers/assets.go:67-133 | A HIT is what resizing the answer of any MISS for the same id gives. |
| `Pipeline.MissOffersAll` | internal/handlers/assets.go:108-118 | In every interleaving, before a miss is answered with the source, Enqueue has been called for this path and id with 800, 1200 and 1920. |
| `Pipeline.RegisterEnters` | internal/content/assets.go:33-60 | Once a path is entered its identifier leads to the cleaned form, if no paths in use collide. |
| `Pipeline.WrittenOnce` | internal/content/webp_processor.go:126-129 | No object that can be read, source or variant, ever changes, given that sources are not rewritten with other bytes. |
| `Pipeline.EndsGivenUp` | internal/content/webp_processor.go:72-82 | Any job that ends without saving, where no variant is stored, leaves its id and width done and without a variant. |
| `Pipeline.NoHitUntilRestart` | internal/content/webp_processor.go:67-82 | Once a job has ended without its variant, no variant is stored for its id and width, and no request for it becomes a HIT, until the process restarts. |
| `Pipeline.StepKeepsInv` | internal/content/webp_processor.go:84-130 | Every step of requests, Enqueue, workers, uploads and restarts keeps: variants are of their sources, jobs and fetched bytes belong to their ids. |
| `Pipeline.SaveKeeps` | internal/content/webp_processor.go:98-129 | Saving a variant twice saves the same bytes and disturbs no other. |
| `Images.SyncAssets` | internal/content/sync.go:26-69 | Fails exactly if the directory cannot be opened or the walk meets an error, or an image under a directory given by a relative path, and writes nothing in the latter case. Writes only readable image files, under their own keys; every one that the walk reaches and that could be saved is there; as long as every lookup is answered nothing readable is overwritten and every variant stays its source's. |
| `Images.ProcessJob` | internal/content/webp_processor.go:84-130 | Writes nothing but the variant of the job's source; without failures it is there if the source decodes. |
| `Images.JobKeeps` | internal/content/webp_processor.go:84-130 | What a job writes keeps the invariant that hits rest on. |
| `Images.ScaledShape` | internal/content/webp_processor.go:142-189 | Scaling never enlarges, keeps the shape to within a row, is idempotent, and yields an image of height zero exactly for sources flatter than one row. |
| `Images.AssetHandler.ServeHTTP` | internal/handlers/assets.go:33-136 | With all calls carried the answer is the variant exactly where it is stored, and the source exactly where only that is. A miss for an entered path, and nothing else, queues: with room for three and time, 800, 1200 and 1920 are all in flight afterwards, each by one new job exactly if it was not before. |
| `Images.AssetHandler.EnqueueAll` | internal/handlers/assets.go:108-116 | New jobs are for this path and id, for widths not in flight, no two of one width; with room for three and time, all three widths are in flight, each by a new job exactly if it was not before. |
| `Images.ObjectStore.Open` | internal/storage/s3_store.go:41-66 | Reads the object under the trimmed key, and nothing under the empty one. |
| `Images.ObjectStore.Exists` | internal/storage/s3_store.go:68-83 | Never true without an object under the trimmed key. |
| `Images.ObjectStore.Save` | internal/storage/s3_store.go:85-102 | Writes under the key as given. |
| `Markdown.TransformChanges` | internal/content/markdown.go:74-126 | For every document, the two passes change only local image destinations, as far as the first empty one, and take out exactly the first level-1 heading in document order. |
| `Markdown.RewriteIsRewriting` | internal/content/markdown.go:74-105 | Rewriting is a map over what the walk meets, and stops exactly when there is an image with no destination. |
| `Markdown.RewrittenIffReached` | internal/content/markdown.go:91-101 | A local image gets its URL if and only if no empty destination comes before it. |
| `Markdown.WhatImagesBecome` | internal/content/markdown.go:74-105 | Everything a document holds, one by one: an image of a source gets /assets/ and the UUID of its cleaned path unless an empty image comes before it, and all else stays as it is. |
| `Markdown.ExternalIff` | internal/content/markdown.go:128-137 | Left alone as external are exactly the destinations that begin with http, ftp or sftp, in capitals or small letters. |
| `Markdown.EmptyImageStops` | internal/content/markdown.go:91-94 | A document in which an image with no destination leaves the local image after it unrewritten. |
| `Markdown.StripIsStripped` | internal/content/markdown.go:107-126 | One heading of level 1, the first met, goes with all it holds; with none the tree is unchanged. |
| `Markdown.RenderedUrlRoundTrip` | internal/content/markdown.go:139-160 | Each rendered URL of a local image is read back as its UUID and width, and the UUID leads to the cleaned path. |
| `Markdown.RewriteImages` | internal/content/markdown.go:74-105 | The walk with its effect: exactly the cleaned paths of the images it reaches are entered. |
| `Limiter.EvictionInvisibleIff` | internal/middleware/limiter.go:66-77 | A limiter that evicts answers every run as one that never does, if and only if three minutes refill the burst. |
| `Limiter.RunsAgree` | internal/middleware/limiter.go:66-103 | The refinement: the same answers, and the same level for every address, at any times of clean-up. |
| `Limiter.EvictKeepsLevels` | internal/middleware/limiter.go:72-76 | Eviction changes no address's level. |
| `Limiter.EvictionVisible` | internal/middleware/limiter.go:66-77 | A run that tells the two apart when three minutes are not enough. |
| `Limiter.WindowBound` | internal/middleware/limiter.go:79-103 | An address is admitted at most the burst plus the rate times the window's length, in every run with evictions. |
| `Limiter.DeniedInvisible` | internal/middleware/limiter.go:131-148 | Leaving all refused requests out of a run changes no other answer. |
| `Limiter.PeekIsFree` | internal/middleware/limiter.go:132-135 | Reserve and Cancel at one instant leave the level as it was. |
| `Limiter.RefusedUntil` | internal/middleware/limiter.go:132-142 | The time a refused request is told to wait for, whole seconds and at least one, comes from the instant its token is there. |
| `Limiter.RemainingIsLeft` | internal/middleware/limiter.go:150-152 | An admitted request is told the whole tokens that are left after it. |
| `Limiter.NewAddressHasBurst` | internal/middleware/limiter.go:89-100 | The first request of an address without an entry leaves the burst less one. |
| `Limiter.RetryIsAdmitted` | internal/middleware/limiter.go:131-148 | An address that was refused, waits as told and sends nothing meanwhile is admitted, whatever others send and whenever clean-ups run. |
| `Limiter.DivisionIsExact` | internal/middleware/limiter.go:36-43 | Division by the rate is a wait as the model asks of the library. |
| `Limiter.TakeByLevel` | internal/middleware/limiter.go:131-152 | The answer and what is left depend on the bucket's level alone. |
| `Limiter.IPRateLimiter.GetLimiter` | internal/middleware/limiter.go:79-103 | A new address gets a full bucket, a known one its own, seen now. |
| `Limiter.IPRateLimiter.TakeToken` | internal/middleware/limiter.go:131-152 | Allow, else the peek, is the step whose laws are above. |
| `Limiter.IPRateLimiter.Serve` | internal/middleware/limiter.go:117-154 | A request is one step of the run; a malformed address changes nothing. No other address is touched. |
| `Limiter.IPRateLimiter.Cleanup` | internal/middleware/limiter.go:66-77 | Removes exactly the clients idle for more than three minutes. |
| `GeoStats.CountsAreVisits` | internal/middleware/geostats.go:49-81 | In every run each country's count is the number of its first visits and returns after more than 24 hours, and the counts sum to all of them. |
| `GeoStats.CleanupInvisible` | internal/middleware/geostats.go:49-60 | A run with clean-ups, however early they read the clock, counts what the run without them does. |
| `GeoStats.CleanupRemembers` | internal/middleware/geostats.go:50-58 | What a clean-up forgets no longer matters to the next visit. |
| `GeoStats.TopCountsDetermined` | internal/middleware/geostats.go:88-113 | The counts of a ranking are the same whatever order the map was read in. |
| `GeoStats.GeoStats.Record` | internal/middleware/geostats.go:62-81 | One visit of the run: the count and the last visit. Without an address nothing changes; a visit without a country counts for "XX". |
| `GeoStats.GeoStats.CleanUp` | internal/middleware/geostats.go:49-60 | The loop removes exactly the entries older than the cut-off. |
| `GeoStats.GeoStats.GetTopCountries` | internal/middleware/geostats.go:88-113 | Descending, distinct, true counts, as many as asked or there are, and no omitted country above an included one. |
| `PostCache.FilledOnce` | internal/content/disk_loader.go:115-185 | Once a call has returned bytes, the disk is not read again, every call that returns bytes returns these, and later calls never leave the read lock's path. |
| `PostCache.LoadReadsFile` | internal/content/disk_loader.go:140-183 | Every load in every interleaving is such a reading of the file. |
| `PostCache.OnlyBodyIsServed` | internal/content/disk_loader.go:172-181 | Files of one body, whatever their front matter, give one content and one answer. |
| `PostCache.FailureLeavesEmpty` | internal/content/disk_loader.go:137-183 | A load begins with an empty cache, and one that fails leaves it empty. |
| `PostCache.RunKeepsInv` | internal/content/disk_loader.go:115-185 | In every interleaving readers and writer exclude each other, and nobody has seen anything but the cached content. |
| `PostCache.NoDeadlock` | internal/content/disk_loader.go:117-135 | While a call is unfinished, some unfinished call can go on. |
| `PostCache.Post.GetContent` | internal/content/disk_loader.go:115-185 | An undisturbed call: cached bytes unchanged; else the rendering of the body below the front matter, or of the whole file where none is found, is served and cached; it fails, and leaves the cache empty, exactly if the file cannot be opened, measured or read, is larger than 10 MB, or does not render. |
| `PublicId.GeneratePublicId` | internal/utils/random.go:16-39 | The first accepted bytes of the stream through the charset; no earlier buffer had supplied them; an error only when the stream gives out. |
| `PublicId.FirstAcceptedStays` | internal/utils/random.go:23-37 | Reading on would not change the identifier. |
| `PublicId.Unbiased` | internal/utils/random.go:12-13 | Every string over the charset has exactly 4^n accepted byte strings. |
| `PublicId.GeneratedIsPublicId` | internal/seeder/seeder.go:378-380 | Twelve generated characters always pass the seeder's folder-name check. |
| `PublicId.CharsetDistinct` | internal/utils/random.go:9 | The charset has no repeats. |
| `Slug.SlugifyShape` | internal/utils/slug.go:13-22 | Every slug is empty or in the validators' grammar, and no longer than the title. |
| `Slug.SlugLetters` | internal/utils/slug.go:13-22 | The letters and digits of the slug are those of the title, in order, with capitals read as small letters. |
| `Slug.SlugParts` | internal/utils/slug.go:13-22 | Two neighbouring letters or digits of a title are parted in the slug exactly when something else stands between them, and then by one hyphen. |
| `Slug.SlugIgnoresCase` | internal/utils/slug.go:15 | Titles that differ only in the case of ASCII letters have one slug. |
| `Slug.SlugifyFixedPoints` | internal/utils/slug.go:13-22 | The fixed points are exactly the empty string and the grammar. |
| `Slug.SlugifyIdempotent` | internal/utils/slug.go:13-22 | Normalising twice is normalising once. |
| `Slug.GrammarIsSpacing` | internal/storage/sqlite/blogs.go:20 | The regular expression and its reading character by character agree. |
| `Slug.LegalTitleSlug` | internal/storage/sqlite/blogs.go:220-225 | The slug of a legal title fails validation only by being too short. |
| `Links.GetLatestPublicPosts` | internal/storage/sqlite/posts.go:65-89 | An error exactly for bad bounds; else what stands after as many posts as are skipped, in some newest-first arrangement of exactly the listed posts, as many as asked or left. |
| `Links.EveryPostOnce` | internal/storage/sqlite/posts.go:80-82 | The pages of one arrangement, put together, are the feed: no post is left out and none comes twice. |
| `Links.OneFeedIff` | internal/storage/sqlite/posts.go:80 | The order leaves no choice, so that all calls see one arrangement, if and only if no two posts of the feed have one date. |
| `Links.CallsTile` | internal/storage/sqlite/posts.go:65-89 | If no two have, pages fetched by separate calls show every post once. |
| `Links.GetPostBySlugOrPublicId` | internal/storage/sqlite/posts.go:133-161 | Some matching row, none only if there is none. |
| `Links.LinkFindsItsPost` | internal/components/index.templ:82 | From when a post is listed on, its link finds it and no other, if and only if no other visible post of its blog is named by that link the other way round. |
| `Links.ConfusedExists` | internal/storage/sqlite/posts.go:133-161 | Two posts with ids of the generated form and valid slugs, the slug of one being the id of the other, whose link leads to either. |
| `Links.FollowLink` | internal/components/index.templ:82 | Following every link of a page of the feed reaches the posts of the page, when no slug in a blog is another post's public id. |

## Left out

- Links.GetPostBySlugOrPublicId: the raw database error it returns for no row is one outcome here, not a mapped
  not-found.
- Restarting.SeedTwice: `updated_at`, which the second run's blog updates set, is not a column of the model.
- Restarting.Restarts: no other statements come between the starts; those on blogs are the subject of `Lifetimes`.
  Statements made while a start is under way are only in the histories of effects of `Interleaved`.
- Restarting.SeedTwice: its exact condition is one on the tree the first run leaves; on the tree before, folders named
  by their own manifests are a sufficient one.
- Seeder.Seeder.Seed: that a drawn id names no existing folder without a row is assumed; a drawn id that a row has
  already is only a run that is not smooth.
- Processor.Processor.Enqueue: closing the channel at shutdown can race with the send; shutdown is not modelled.
- Markdown.RewriteImages: the tree is a value that is rebuilt, where the original changes its nodes in place; aliasing
  between nodes is not captured.
- Limiter.IPRateLimiter.Serve: looking up the bucket and taking the token are one step at one instant, as are Reserve
  and Cancel; requests that overlap within them are not modelled.
- Images.ScaledShape: only the sizes; sampling and encoding are one function of the source and the width.
- A file name used by both a file and a directory, and a directory named like a manifest, only appear as failed steps.
- Paths with invalid UTF-8, and lower-casing outside what a slug or an extension can see.
- Real-time details of the token bucket (floating point) and of DATETIME text.
- The S3 and SQLite engines: a map of objects, and rows with the declared unique indexes and foreign keys.
- The YAML, front-matter, Markdown and image codecs: functions of their input.
- UpdateBlogVisibility, UpdateBlogRegistration, users and comments: single-row changes without new interactions.
- HTTP routing, the other handlers, templates, sessions, configuration, header selection and metrics.
- Rendering of external images, which get the width suffixes too.
- The path walk and front-matter scan of `LoadLazyMetaFromDisk`, which only lists posts.
