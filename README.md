# Route groups and `.env` loading, in Dafny

This project models two parts of a small Go HTTP service template.

**Route groups** (`http.go`). A `RouterGroup` is a node in a tree linked by parent pointers. Each group holds:
- a path prefix;
- its own list of middlewares;
- a pointer to the shared `http.ServeMux`.

The operations are modelled as follows:
- `Group` makes a child group. The child's prefix is the parent prefix plus the new one, with every trailing `/` removed.
- `Use` appends a middleware to the group's own list.
- `CollectMiddlewares` walks up the parent pointers and concatenates the lists, root group first.
- `Handle` registers a closure at the path computed the same way as a child prefix. The GET/POST/PUT/DELETE shortcuts call `Handle`.
- When a request arrives, the closure rejects a wrong HTTP method. Otherwise it collects the middlewares at that moment and wraps the handler in them, so the first middleware collected is the outermost.

Middlewares and handlers are opaque named symbols. A wrapped handler is a value that records its layers. The mux is a table from path to route entry.

**`.env` loading** (`initializers/loadEnv.go`). `LoadEnv` reads a file line by line and handles each line like this:
- It trims white space, using Go's `unicode.IsSpace` set.
- It skips blank lines and lines that start with `#`.
- It splits the line at the first `=` and trims both sides.
- It sets the pair in the process environment with `os.Setenv`.

It stops at the first line without `=` and at the first pair `os.Setenv` rejects. It also reports an open error or a read error from the scanner.

The environment is a map held in an `Environment` object. The file is either unopenable, or a sequence of lines plus a flag for a read error from the scanner. `ApplyLines`, the loop itself, is proved against the functional specification `Run`. All the properties of the loader are proved about `Run` and `Load`.

Files:
- `paths.dfy`: `strings.TrimRight(s, "/")` and the prefix join.
- `handlers.dfy`: the middleware chain and the reverse wrapping loop.
- `routing.dfy`: the `Mux` and `RouterGroup` classes, registration and serving.
- `text.dfy`: `strings.TrimSpace` and the split at the first `=`.
- `dotenv.dfy`: the loader.
- `slices.dfy`: Go's slices and `append` with shared backing arrays, used to show how concurrent requests interfere in `CollectMiddlewares` (see Findings).

## Model

| member | source | states |
|---|---|---|
| Paths.TrimRightSlash | http.go:29 | the result is the longest prefix of the input that does not end in `/`, and everything removed is `/` |
| Paths.TrimRightSlashUnique | http.go:29 | these properties determine the trimmed string uniquely |
| Paths.Join | http.go:29 | a child prefix is a prefix of parent+prefix that never ends in `/`, and only slashes were removed; no separator is inserted |
| Paths.JoinEmptyIff | http.go:29 | the joined path is empty exactly when parent+prefix consists only of slashes |
| Paths.RootRouteCollapses | http.go:68 | a root group with an empty prefix computes the empty path for route `/` |
| Routing.RootRouteRefused | http.go:68-70 | registering route `/` on a root group with an empty prefix is refused and the mux is unchanged; Go's ServeMux panics on that empty pattern at start-up |
| Routing.BareRouteRefused | http.go:68-70 | registering route `api` on a root group with an empty prefix gives the path `api`, which has no `/`; it is refused and the mux is unchanged, where Go's ServeMux panics |
| Paths.JoinIdempotent | http.go:68 | joining an already joined prefix with an empty pattern changes nothing |
| Paths.TrimRightSlashAppend | http.go:68 | when the suffix has a character other than `/`, trimming touches only the suffix |
| Paths.NestedJoinIff | http.go:68 | a route under a nested group gets the same path as one under the flat concatenation of prefixes exactly when the route is all slashes or the concatenated prefixes did not end in `/` |
| Handlers.Chain | http.go:81-83 | specification of the wrapped handler `mws[0](mws[1](…mws[n-1](h)))`; its properties are stated by ChainLayers, ChainRoundTrip and ChainAppend |
| Handlers.Innermost | http.go:85 | helper observer for ChainLayers: the handler a request finally reaches is an endpoint |
| Handlers.ChainLayers | http.go:77-83 | wrapping puts exactly the given middlewares in front of the handler's layers, the first outermost, and keeps the endpoint; with no middlewares the handler is unchanged |
| Handlers.ChainRoundTrip | http.go:77-83 | reading the layers of a wrapped endpoint gives back the middleware list and the endpoint |
| Handlers.ChainAppend | http.go:77-83 | wrapping with a+b is wrapping with b and then with a around the result |
| Handlers.WrapHandler | http.go:81-83 | the reverse loop builds `mws[0](mws[1](…mws[n-1](handler)))` |
| Routing.Mux.constructor | main.go:42 | a new mux has no routes |
| Routing.Mux.Register | http.go:70 | registration succeeds exactly when the pattern contains `/` and is new; only then is the pattern added, and nothing else changes |
| Routing.RouterGroup.constructor | http.go:18-23 | a root group keeps the mux and prefix, has no parent and no middlewares, and collects nothing |
| Routing.RouterGroup.Child | http.go:27-31 | a child shares the parent's mux, has the joined prefix, links to the parent, starts with its own list empty, and collects exactly what the parent collects |
| Routing.RouterGroup.Group | http.go:26-32 | returns a new valid group with the joined prefix, whose parent is this group, with an empty list of its own; the parent's list is not copied |
| Routing.RouterGroup.Use | http.go:35-37 | the group's own list becomes old + [mw], only that field of this group changes, and what the group collects gains mw last |
| Routing.RouterGroup.AllMiddlewares | http.go:56-64 | specification of what a group collects: its ancestors' collections followed by its own list; its properties are stated by AncestorMiddlewaresFirst and CollectedLength, and CollectMiddlewares is proved equal to it |
| Routing.RouterGroup.CollectMiddlewares | http.go:56-64 | the loop returns the concatenation of the lists from the root group down to this group |
| Routing.LineageAt | http.go:59-62 | every group on the parent chain of a valid group is valid, and its own chain is the matching suffix |
| Routing.AncestorMiddlewaresFirst | http.go:56-64 | what an ancestor collects is a prefix of what each of its descendants collects |
| Routing.CollectedLength | http.go:56-64 | the number of middlewares collected is the sum of the list lengths along the chain |
| Routing.RouterGroup.Handle | http.go:67-70 | registers at Join(prefix, pattern), the prefix a Group(pattern) would get, an entry holding the method, the handler and this group; it fails and changes nothing when the path has no `/` (the empty path included) or is taken |
| Routing.RouterGroup.Get | http.go:39-41 | Handle with method GET |
| Routing.RouterGroup.Post | http.go:43-45 | Handle with method POST |
| Routing.RouterGroup.Put | http.go:47-49 | Handle with method PUT |
| Routing.RouterGroup.Delete | http.go:51-53 | Handle with method DELETE |
| Routing.Serve | http.go:70-86 | a request is rejected exactly when its method differs from the registered one; otherwise it is served by the group's currently collected middlewares around the handler, the root group's first middleware outermost |
| Routing.ServeAfterUse | http.go:70-79 | a middleware added to a group after its route was registered wraps the next request through that route, innermost of the group's middlewares |
| GoSlices.Append | http.go:60 | Go's append: the result shows the old elements followed by the new ones; when they fit in the spare capacity the result shares the old backing array, otherwise it gets a fresh one of the grown capacity and the old array is untouched |
| GoSlices.UseAll | http.go:35-37 | a list built by one Use call per middleware, from nil, holds exactly those middlewares |
| GoSlices.RootAfterThreeUses | http.go:35-37 | three Use calls leave a list of length 3 in a backing array of capacity 4 |
| GoSlices.CollectUnderRoot | http.go:56-64 | the collecting loop as written, for a group under the root: alone, it returns the root's list followed by the group's and changes neither, but when the group's list fits in the root's spare capacity the result lives in the root's backing array |
| GoSlices.SiblingRequestsRace | http.go:56-64 | two requests through sibling groups [x] and [y] under a root with three middlewares, interleaved at the root: both see [m1, m2, m3, y], so the x request is not wrapped in its own middleware |
| Text.TrimLeftSpace | initializers/loadEnv.go:20 | the result is a suffix of the input that does not start with white space, and only white space was dropped |
| Text.TrimRightSpace | initializers/loadEnv.go:20 | the result is a prefix of the input that does not end with white space, and only white space was dropped |
| Text.TrimSpace | initializers/loadEnv.go:20 | the result starts and ends with a non-space character, or is empty |
| Text.TrimSpaceAbsent | initializers/loadEnv.go:32 | trimming introduces no character, so a key cut before the first `=` holds no `=` |
| Text.TrimSpaceKeeps | initializers/loadEnv.go:20 | trimming removes only white space: a character that is not white space is in the trimmed line exactly when it is in the raw line |
| Text.TrimSpaceEmptyIff | initializers/loadEnv.go:20-22 | a line trims to the empty string exactly when it is all white space |
| Text.TrimLeftSpaceSkips | initializers/loadEnv.go:20 | white space in front of a string that starts with a non-space is exactly what the left trim removes |
| Text.TrimRightSpaceSkips | initializers/loadEnv.go:20 | white space after a string that ends with a non-space is exactly what the right trim removes |
| Text.TrimSpaceSurrounded | initializers/loadEnv.go:20 | any white space around a trimmed string is removed, and nothing else is |
| Text.TrimSpaceIdempotent | initializers/loadEnv.go:20 | trimming twice gives the same result as trimming once |
| Text.SplitAtFirst | initializers/loadEnv.go:27-28 | there is no separator exactly when the line has no `=`; otherwise the line is before + "=" + after, and before has no `=` |
| Text.SplitAtFirstJoin | initializers/loadEnv.go:27 | splitting before + "=" + after gives back both parts when before has no `=`; after may contain further `=` |
| DotEnv.Classify | initializers/loadEnv.go:20-33 | a raw line is skipped exactly when it is all white space or its trimmed form starts with `#`; any other line is malformed exactly when it has no `=`, and then carries its trimmed form; an assignment's key has no `=`, and key and value are trimmed |
| DotEnv.ClassifyTrimmed | initializers/loadEnv.go:22-33 | a trimmed line is skipped exactly when it is empty or starts with `#`; otherwise it is malformed exactly when it has no `=`; an assignment carries the trimmed text before and after the line's first `=` |
| DotEnv.ClassifySplit | initializers/loadEnv.go:27-33 | a trimmed non-comment line before=after, with no `=` in before, assigns the trimmed sides |
| DotEnv.PaddedKey | initializers/loadEnv.go:32 | a key followed by white space trims back to the key |
| DotEnv.PaddedValue | initializers/loadEnv.go:33 | white space between `=` and a value is trimmed away |
| DotEnv.PaddedLine | initializers/loadEnv.go:20 | trimming a padded assignment line leaves the key, the inner padding, `=` and the value |
| DotEnv.ClassifyPadded | initializers/loadEnv.go:20-33 | a line made of white space, KEY, white space, `=`, white space, VALUE and white space assigns VALUE to KEY; quotes, further `=` and `#` stay in VALUE |
| DotEnv.NoEqualsIsInvalid | initializers/loadEnv.go:27-30 | a line that is not blank, is not a comment and has no `=` is an invalid line that stops loading |
| DotEnv.SetenvAccepts | initializers/loadEnv.go:36 | the rule os.Setenv applies on Unix: a non-empty key without `=` or NUL, and a value without NUL |
| DotEnv.Step | initializers/loadEnv.go:19-39 | an accepted line only adds or overwrites keys; a failing line leaves the environment as it was |
| DotEnv.Run | initializers/loadEnv.go:19-39 | the loop over classified lines, stopping at the first failure: no variable is ever removed, and its only errors are an invalid line and a refused Setenv |
| DotEnv.RunAppend | initializers/loadEnv.go:19 | running a+b runs a, then b from the resulting environment unless a failed |
| DotEnv.RunOneMore | initializers/loadEnv.go:19 | one more line runs only if no earlier line failed |
| DotEnv.StopsAtFirstFailure | initializers/loadEnv.go:28-30 | at the first failing line, loading stops with that line's error; earlier assignments stay set and later lines are ignored |
| DotEnv.SkippedLineIsInert | initializers/loadEnv.go:22-24 | a blank or comment line anywhere changes nothing |
| DotEnv.RunOkIff | initializers/loadEnv.go:19-39 | the loop ends without error exactly when every line is blank, a comment, or an assignment that os.Setenv accepts |
| DotEnv.LastAssignmentWins | initializers/loadEnv.go:19-36 | on success, a key holds the value of the last line that assigns it |
| DotEnv.UnassignedKeyKept | initializers/loadEnv.go:19-36 | on success, a key that no line assigns keeps its earlier value, or stays unset |
| DotEnv.RunOverlays | initializers/loadEnv.go:19-39 | whether loading succeeds does not depend on the starting environment; on success the file's assignments are laid over it |
| DotEnv.RunIdempotent | initializers/loadEnv.go:19-39 | loading the same lines again after a success changes nothing |
| DotEnv.Load | initializers/loadEnv.go:11-46 | the whole of LoadEnv on the lines classified by its helper ClassifyAll: no variable is removed; the open error happens exactly for an unopenable file, which leaves the environment untouched; a read error is reported only for a file whose scanner failed |
| DotEnv.LoadOkIff | initializers/loadEnv.go:11-46 | LoadEnv returns no error exactly when the file opens, every line is accepted, and the scanner reports nothing |
| DotEnv.Environment.constructor | initializers/loadEnv.go:36 | the environment starts with the given variables |
| DotEnv.Environment.Setenv | initializers/loadEnv.go:36-38 | os.Setenv succeeds exactly for a non-empty key without `=` or NUL and a value without NUL; on failure the environment is unchanged |
| DotEnv.Environment.ApplyLines | initializers/loadEnv.go:19-39 | the loop leaves the environment and status that `Run` gives for the classified lines |
| DotEnv.Environment.LoadEnv | initializers/loadEnv.go:11-46 | final environment and status are those of `Load`: open failure before anything is set, then the lines, then the scanner error only if every line succeeded |

## Left out

- The payload and proof logic of the service: `generatePayload` and `checkPayload` are not part of this model, and the HTTP handlers in `handlers.go` only encode and decode JSON.
- `logger.go`, `middleware.go`, `common.go` and `main.go`: logging, timing, panic recovery, error documents and server start-up are I/O. `main.go` ignores the error `LoadEnv` returns.
- The logger of a route group: `NewRouterGroup` drops its logger argument and `Group` does not copy it, so every group's logger is nil. On a wrong method, the call at http.go:72 reaches `logMessage`, whose lock at logger.go:123 dereferences the nil logger and panics. The `http.Error` at http.go:73 is therefore never reached and no 405 is written. The recovery middleware around the mux (main.go:48, middleware.go:26-30) catches the panic and answers 500. The model records a wrong method only as "rejected, handler not run".
- `http.ServeMux` request dispatch (pattern matching, redirects): the mux is only a table from registered path to entry.
- Routing.Mux.Register: follows the ServeMux of Go 1.22 and later; common.go:35 reads `Request.Pattern`, which exists from Go 1.23 on. Where Go panics, on a pattern without `/` (the empty one included) or a pattern registered before, the model refuses the registration and leaves the table unchanged. The model does not parse the pattern further. A joined path that contains a space is taken as a path here, where Go reads a method or host in front of it. Malformed `{…}` wildcards and different patterns whose wildcards conflict are accepted here, where Go panics.
- `registerHandlers` (http.go:89-95): fixed wiring of concrete handlers.
- Concurrency: requests are modelled one at a time. net/http serves each request in its own goroutine, and the append at http.go:60 writes into an ancestor's spare capacity, so two requests through sibling groups can overwrite each other's collected list (see Findings). Routing.RouterGroup.CollectMiddlewares is correct only for requests served one at a time, which is what the model assumes. `Use` racing with requests is not modelled either.
- GoSlices.Append: Go's growth rule is modelled as doubling or exactly enough, whichever is larger. The rounding up to allocation size classes and the slower growth of slices of 256 elements or more are left out. GoSlices.CollectUnderRoot unrolls the loop of http.go:56-64 for a group directly under the root, the case the race needs.
- Middleware behaviour: a middleware is a name, and applying it is recorded as a layer. What a real middleware does with the request, such as short-circuiting, is not modelled.
- Routing.ServeAfterUse: covers only a `Use` on the route's own group. That a `Use` on an ancestor also reaches the route follows from `AncestorMiddlewaresFirst` and `Serve` reading the current state, but it is not stated as one lemma across the change.
- Routing.RouterGroup.Use: the frame says no other group's list changes. There is no separate lemma about descendants' collected lists across the call.
- File opening and `bufio.Scanner`: the file arrives as a list of lines and a read-error flag. A line longer than the scanner's 64 KiB buffer is a read error in Go. Here it is covered by the flag, not derived from the line length. The scanner drops a trailing `\r`, which `TrimSpace` removes anyway.
- DotEnv.Environment.Setenv: follows Go's Unix rules (a key without `=` or NUL, a value without NUL). Other platforms and a failing C `setenv` are not modelled.
- The text of Go's error messages: errors are the constructors of `LoadError`, and `InvalidLine` carries the trimmed line.

## Findings

| source | as written | input that shows it | evidently intended | confidence | as-written member | corrected member |
|---|---|---|---|---|---|---|
| http.go:60 | each ancestor's list is put in front with `append`, which writes into that list's spare capacity; that backing array is shared by every request through the ancestor's descendants | a root group that called Use three times (length 3, capacity 4) and two child groups with own lists [x] and [y]; a request through each child, served at the same time, both reach the root before either wraps its handler | each request wraps its handler in its own list, [m1, m2, m3, x] for the x group | not executed; it depends on goroutine scheduling | GoSlices.SiblingRequestsRace | Routing.RouterGroup.CollectMiddlewares |
