# Verified model of the `oop` exercises

This project models, in Dafny, the core behaviour of five small Python
programs and proves properties of that model.

- **`7.py`: a dependency-injection container.** The `Injector` maps an
  interface to an implementation, a life style and fixed parameters. It
  builds instances on demand and resolves each constructor parameter whose
  annotated type is registered, recursively. It caches Singleton instances
  for its whole life and Scoped instances for the duration of a
  `with injector.scope():` block.
- **`6/6.py`: a virtual keyboard.** It follows the Command and Memento
  patterns: keys are bound to commands, pressing a key executes its command,
  and undo and redo stacks replay commands. The bindings are saved as one
  string per key.
- **`5.py`: a repository and an auth service.** The user repository holds
  records keyed by id. The authorisation service remembers the signed-in
  user's login in a session file.
- **`3.py`: a logger.** It runs a chain of substring filters, then a list of
  handlers.
- **`2/2.py`: a large-letter console printer.** It reads a font file of
  letters and glyph rows, then places each glyph row on the screen.

Files:

- `wrappers.dfy` is the `Option` type.
- `injector.dfy` is module `DependencyInjection`.
- `keyboard.dfy` is `VirtualKeyboard`.
- `repository.dfy` is `UserStore`.
- `logging.dfy` is `Logging`.
- `printer.dfy` is `FontPrinter`.

Where the source mutates state, the model is a class with those fields. Each
of its methods is proved against a specification function on the old state,
for example `Injector.GetInstance` against `Resolve` or `PrinterClass.UpdateFont`
against `ParseFrom`. The promised properties are then proved as lemmas about
those functions.

Modelling choices in the injector:

- **Objects.** Python objects are a heap `objects`. A new object is appended
  to it, and its identity is its index, so `is` becomes equality of indices.
- **Signatures.** `get_type_hints` on a class is given explicitly, as the
  ordered annotated parameters (`hints`). The parameters without a default
  (`required`) are also explicit. A call that omits a required argument is
  the `TypeError` `MissingArgument`.
- **Termination.** The source has no cycle check. Resolution therefore takes
  a ghost ranking (`RankedFor`). It must rank the requested key. Every
  dependency the resolver could follow from a ranked key must be ranked
  lower. Keys the request never reaches need no rank, so a cycle elsewhere
  in the table does not matter (`UnrelatedCycleIgnored`). A cycle the request
  can reach has no ranking (`CycleUnranked`). The ranking ignores the
  caches, so it also excludes a reachable cycle that the source would cut
  short at an already cached Singleton or Scoped instance.

## Model

| member | source | states |
|---|---|---|
| DependencyInjection.Policy | 7.py:47-60 | exactly "Singleton" selects the singleton branch and exactly "Scoped" the scoped one; every other string is per-request |
| DependencyInjection.FixedParams | 7.py:33 | definition of `params or {}`: missing params become the empty dict, given ones are kept as they are |
| DependencyInjection.LiteralArgs | 7.py:64-66 | definition: a factory's keyword arguments are exactly its fixed params |
| DependencyInjection.Injector.constructor | 7.py:15-19 | a new container has no registrations, empty caches and no open scope |
| DependencyInjection.Injector.Register | 7.py:21-34 | a key already registered fails with the table unchanged; otherwise exactly (implementation, life style, params or {}) is stored; no cache changes; the life style defaults to PerRequest and params to none |
| DependencyInjection.Resolve | 7.py:36-60 | `get_instance` on the caches: its partners `ResolveSound`, `SingletonIdentity`, `ScopedIdentity`, `PerRequestFresh` and `FailureStoresNothing` state what each branch leaves cached and returns |
| DependencyInjection.Build | 7.py:62-88 | `_create_instance`: a factory gets its params (`FactoryGetsOnlyParams`), and a class gets its collected arguments or fails on a missing required one (`ConstructorArgs`, `BuildSound`) |
| DependencyInjection.CollectArgs | 7.py:79-86 | the parameter loop: `CollectRule` states the per-parameter rule and `CollectSound` the invariant it keeps |
| DependencyInjection.UnrelatedCycleIgnored | 7.py:36-60 | with `C` and `D` injecting each other, a dependency-free `E` is ranked on its own and resolves to one new object |
| DependencyInjection.StepDown | 7.py:79-86 | a followed dependency of a ranked key is ranked lower |
| DependencyInjection.Descends | 7.py:79-86 | along a chain of followed dependencies the rank drops by at least one per step |
| DependencyInjection.CycleUnranked | 7.py:79-86 | in any table, no ranking covers a key on a cycle of followed dependencies, from which the source recurses without end |
| DependencyInjection.CycleTableUnranked | 7.py:79-86 | in the table with `C` and `D` injecting each other, no ranking covers `C` |
| DependencyInjection.Injector.GetInstance | 7.py:36-60 | the new caches and the result are those of `Resolve` on the old caches; the cache invariant is kept; registrations and scope flag are unchanged |
| DependencyInjection.Injector.CreateInstance | 7.py:62-88 | the loop over the constructor's parameters computes exactly `Build`: the factory branch, then the argument collection with recursive resolution, then the call |
| DependencyInjection.Injector.Scope | 7.py:90-92 | returns a new scope context bound to this container |
| DependencyInjection.ScopeContext.constructor | 7.py:95-96 | the context refers to the given container |
| DependencyInjection.ScopeContext.Enter | 7.py:98-100 | sets the scope flag and returns the container; nothing else changes |
| DependencyInjection.ScopeContext.Exit | 7.py:102-104 | clears the flag and empties the scoped cache; singletons and built objects are kept |
| DependencyInjection.ResolveSound | 7.py:36-60 | resolution only adds cache entries and objects, keeps the cache invariant, and returns an object built by the key's implementation; the only keys it caches rank below the requested one, plus that key itself when it succeeds |
| DependencyInjection.BuildSound | 7.py:62-88 | a successful build returns the newest object, built by the key's implementation; caches only grow |
| DependencyInjection.CollectSound | 7.py:79-86 | collecting arguments keeps the invariant, and every injected reference names an existing object |
| DependencyInjection.UnregisteredFails | 7.py:38-39 | an unregistered key fails with NotRegistered and leaves every cache unchanged |
| DependencyInjection.SingletonIdentity | 7.py:47-50 | a cached singleton is returned without building; after a successful first call, later calls return the same instance and change nothing |
| DependencyInjection.ScopedIdentity | 7.py:52-57 | outside a scope a Scoped key fails with OutsideScope and nothing changes; inside one, repeated calls return the same cached instance |
| DependencyInjection.PerRequestFresh | 7.py:59-60 | a PerRequest key never enters either cache; a success returns an object newer than all earlier ones |
| DependencyInjection.PerRequestDistinct | 7.py:59-60 | two PerRequest resolutions in a row give two distinct objects |
| DependencyInjection.FailureStoresNothing | 7.py:47-57 | a failed resolution adds no cache entry for the requested key |
| DependencyInjection.NewScopeFreshInstance | 7.py:102-104 | after the scoped cache is emptied, the next scoped instance is newer than every earlier object |
| DependencyInjection.FactoryGetsOnlyParams | 7.py:64-66 | a factory is called with exactly its params, resolves nothing, and yields one new object |
| DependencyInjection.CollectRule | 7.py:79-86 | per parameter: `return` is skipped, a fixed param wins over a registered type, a registered type gets its resolved instance, anything else is omitted; earlier arguments are kept |
| DependencyInjection.CollectRuleResolved | 7.py:85-86 | the rule above for a parameter resolved through `get_instance` |
| DependencyInjection.ConstructorArgs | 7.py:79-88 | a built object gets arguments for exactly the filled names, each as the rule says; once every dependency resolved, the build succeeds iff every required name is filled |
| DependencyInjection.SingletonDependencyShared | 7.py:47-50 | two constructors injecting the same Singleton receive the very same instance |
| DependencyInjection.ProductionRanked | 7.py:186-200 | the production configuration has no dependency cycle |
| DependencyInjection.ProductionDatabase | 7.py:236-239 | in a scope, the SqlDatabase is built with its connection string and the cached logger, then served from the scoped cache |
| DependencyInjection.ProductionSender | 7.py:195-200 | with the logger cached, the SMTP sender always resolves |
| DependencyInjection.ProductionSendersDistinct | 7.py:245-247 | successive SMTP senders are distinct objects |
| DependencyInjection.ConfigureProduction | 7.py:186-200 | the three registrations of `configure_production`, with no cache touched |
| DependencyInjection.ProductionScopeBlock | 7.py:236-239 | both resolutions inside one scope yield the same new database, which holds the singleton logger; the scope is closed afterwards |
| VirtualKeyboard.MediaPlayerCommand.constructor | 6/6.py:69-70 | a new player is not launched |
| VirtualKeyboard.MediaPlayerCommand.Execute | 6/6.py:72-73 | executing launches the player |
| VirtualKeyboard.ExecuteOn | 6/6.py:17-20 | a print command appends its char to the buffer, and the other commands leave it alone; `UndoAfterExecute` is its inverse and `PrintedPush` ties it to the undo stack |
| VirtualKeyboard.UndoOn | 6/6.py:22-26 | a print undo pops the last element when there is one; `PrintUndo` and `UndoAfterExecute` state this |
| VirtualKeyboard.Printed | 6/6.py:142-143 | the chars of the print commands on a stack, bottom first, at most one per command; `PrintedPush` shows a push adds what executing adds, and `Keyboard.Valid` keeps the buffer equal to it |
| VirtualKeyboard.Encode | 6/6.py:163-169 | a print command is saved as the prefix and its char, the others by class name; `RoundTrip` shows `Decode` inverts it |
| VirtualKeyboard.UpToColon | 6/6.py:176 | the text up to the next ':'; `UpToColonFacts` states it is a colon-free prefix, the whole text iff there is no ':' |
| VirtualKeyboard.Decode | 6/6.py:172-183 | the load chain: `DecodeDefined` states when a value loads, `RoundTrip` that it inverts `Encode`, and `ColonIsLost` what a ':' does |
| VirtualKeyboard.UndoAfterExecute | 6/6.py:17-24 | undoing a command right after executing it restores the buffer |
| VirtualKeyboard.PrintUndo | 6/6.py:22-24 | a print undo removes exactly the last buffer element; on an empty buffer it does nothing |
| VirtualKeyboard.PrintedPush | 6/6.py:142-143 | pushing a command onto the undo stack adds to its printed chars what executing it adds to the buffer |
| VirtualKeyboard.SaveRepr | 6/6.py:163-169 | the saved table has exactly the bound keys |
| VirtualKeyboard.UpToColonFacts | 6/6.py:176 | the text after the prefix up to the next ':' is a colon-free prefix; it is the whole text iff the text has no ':' |
| VirtualKeyboard.RoundTrip | 6/6.py:163-183 | every kind decodes from its encoding when a print char holds no ':' |
| VirtualKeyboard.ColonIsLost | 6/6.py:176 | the print char ":" is saved but reloads as "" |
| VirtualKeyboard.DecodeDefined | 6/6.py:175-183 | a saved value is loaded iff it has the print prefix or is one of the three class names |
| VirtualKeyboard.SaveLoadRoundTrip | 6/6.py:162-183 | saving and then loading keeps every binding's kind when no print char holds a ':' |
| VirtualKeyboard.PutDistinct | 6/6.py:182-183 | binding a key to a player no other key holds keeps every media key's player its own |
| VirtualKeyboard.Keyboard.constructor | 6/6.py:120-126 | the stacks and buffer start empty; exactly the decodable saved entries are bound, to their decoded kinds, with fresh unlaunched players, a different one for each media key |
| VirtualKeyboard.Keyboard.Bind | 6/6.py:128-130 | only the entry for the key is set or overwritten, and the encoded table is saved; stacks and buffer are unchanged |
| VirtualKeyboard.Keyboard.Press | 6/6.py:132-144 | an unbound key changes nothing; a bound one is executed (its char appended, or its player launched), pushed on the undo stack, and the redo stack emptied; the buffer stays the printed chars of the undo stack |
| VirtualKeyboard.Keyboard.Execute | 6/6.py:142 | the buffer changes as `ExecuteOn` says; a player is launched |
| VirtualKeyboard.Keyboard.Undo | 6/6.py:146-152 | an empty undo stack is a no-op; otherwise the top moves to the redo stack and its buffer effect is undone |
| VirtualKeyboard.Keyboard.Redo | 6/6.py:154-160 | an empty redo stack is a no-op; otherwise the top is executed again and moves to the undo stack |
| VirtualKeyboard.UndoThenRedo | 6/6.py:146-160 | undo followed by redo restores both stacks and the buffer |
| VirtualKeyboard.BindMainKeys | 6/6.py:192-198 | the bindings `main` makes, and their saved form |
| VirtualKeyboard.TypingSession | 6/6.py:132-160 | typing a, ctrl++, b, then undo twice and redo twice leaves "a", "b" appended and the redo stack empty |
| UserStore.FindId | 5.py:57-61 | the front-to-back scan by id returns a stored record with that id; `FindIdFirst` states it finds the first match and nothing only when there is none |
| UserStore.FindLogin | 5.py:88-92 | the front-to-back scan by login returns a stored record with that login; `FindLoginFirst` states the same for logins |
| UserStore.FindIdFirst | 5.py:57-61 | lookup by id yields the first record with that id, and nothing exactly when no record has it |
| UserStore.FindLoginFirst | 5.py:88-92 | lookup by login yields the first record with that login, and nothing exactly when none has it |
| UserStore.RemoveId | 5.py:77-79 | deleting never lengthens the list |
| UserStore.RemoveIdMembers | 5.py:79 | after delete, a record remains iff it was there and has another id |
| UserStore.RemoveAbsent | 5.py:77-81 | deleting an absent id changes nothing |
| UserStore.RemovePresentShrinks | 5.py:78-81 | deleting a present id shortens the list, so the save happens |
| UserStore.RemoveIdConcat | 5.py:79 | the filter commutes with concatenation, so the kept records stay in their order |
| UserStore.UniqueAfterAppend | 5.py:63-66 | appending a record whose id is absent keeps ids unique |
| UserStore.UniqueAfterReplace | 5.py:69-73 | replacing a record by one with the same id keeps ids unique |
| UserStore.UniqueAfterRemove | 5.py:77-79 | deleting keeps ids unique |
| UserStore.UserRepository.constructor | 5.py:32-42 | the repository starts from the stored records |
| UserStore.UserRepository.GetAll | 5.py:54-55 | all records, in stored order |
| UserStore.UserRepository.GetById | 5.py:57-61 | the scan returns exactly `FindId` |
| UserStore.UserRepository.GetByLogin | 5.py:88-92 | the scan returns exactly `FindLogin` |
| UserStore.UserRepository.Add | 5.py:63-67 | a taken id fails with the list unchanged; otherwise the record is appended at the end; ids stay unique |
| UserStore.UserRepository.Update | 5.py:69-75 | the first record with the id is replaced at the same index and the length is kept; an absent id fails with the list unchanged; ids stay unique |
| UserStore.UserRepository.Delete | 5.py:77-81 | every record with the id is removed as `RemoveId` says; ids stay unique |
| UserStore.AuthService.constructor | 5.py:105-119 | a non-empty saved login that the repository knows signs that user in; otherwise nobody is signed in |
| UserStore.AuthService.SaveSession | 5.py:121-126 | the session holds the current user's login, or is removed |
| UserStore.AuthService.SignIn | 5.py:128-130 | the user becomes current and the session holds its login |
| UserStore.AuthService.SignOut | 5.py:132-135 | signs out (and removes the session) exactly when the current user has the given id; otherwise nothing changes |
| UserStore.AuthService.IsAuthorized | 5.py:137-139 | true exactly when a user is signed in |
| UserStore.AuthService.CurrentUser | 5.py:141-143 | the signed-in user, if any |
| UserStore.SignInOut | 5.py:128-135 | signing in and then out with the same id leaves nobody signed in and no session |
| UserStore.AutoLogin | 5.py:111-130 | a service created from the saved session signs the same user in again |
| Logging.Contains | 3.py:24-25 | the left-to-right substring scan; `ContainsIsSubstring` proves it equal to `IsSubstring` |
| Logging.IsSubstring | 3.py:24-25 | reference definition of `pattern in text`: the pattern occurs at some offset; its partner is `Contains` |
| Logging.ContainsIsSubstring | 3.py:24-25 | the left-to-right scan holds iff the pattern occurs at some offset |
| Logging.Matches | 3.py:24-25 | a filter matches iff its pattern is a substring of the text |
| Logging.FirstReject | 3.py:88-90 | the filters before the returned index all match, and the one at it rejects |
| Logging.FirstRaise | 3.py:92-94 | the handlers before the returned index do not raise, and the one at it raises |
| Logging.AcceptedIff | 3.py:88-93 | the handlers run iff every filter matches, which is always the case with no filters |
| Logging.NothingRaisedAllCalled | 3.py:92-93 | when no handler raises, every handler is called |
| Logging.MissingFirstChar | 3.py:24-25 | a text lacking the pattern's first character does not match |
| Logging.Logger.constructor | 3.py:82-84 | missing filter or handler lists become empty lists |
| Logging.Logger.Log | 3.py:86-95 | filters are consulted in order up to the first reject, which calls no handler; otherwise handlers are called in order up to and including the first that raises; the exception is caught |
| Logging.ErrorFilterOnTestLogs | 3.py:122-124 | the error filter accepts the ERROR test message and rejects the INFO one |
| Logging.ErrorLoggerRoutes | 3.py:116 | the error logger sends a text with "ERROR" to console, file and syslog in order, and any other text nowhere |
| Logging.RaisingHandlerScenario | 3.py:92-95 | a raising second handler stops the third, and `log` returns normally |
| FontPrinter.ReadAt | 2/2.py:24 | past the end of the file a read yields "" |
| FontPrinter.DropLast | 2/2.py:24 | `[:-1]` drops exactly the last character, and "" stays "" |
| FontPrinter.Rows | 2/2.py:31-32 | definition: exactly `n` rows, each the next line less its last character |
| FontPrinter.RowCount | 2/2.py:31 | definition: `range(font)` runs `font` times, or not at all when negative |
| FontPrinter.ParseFrom | 2/2.py:22-32 | the `while True` loop: `FontRoundTrip` and `ParseSerialized` show a well-formed file reads as its table, `BadLetterLine` gives the error path, and `ParseRowCounts` the row counts |
| FontPrinter.Serialize | 2/2.py:22-32 | writes entries in the file format `updateFont` reads; for entries without line breaks (`Writable`), `FontRoundTrip` proves `ParseFrom` inverts it |
| FontPrinter.Table | 2/2.py:29-32 | the table entries give when read in order; its keys are the given ones plus every entry's letter, and `TableLastWins` says the last entry for a letter wins |
| FontPrinter.Block | 2/2.py:27-32 | one entry's lines, a letter line and one line per row; `ParseBlock` proves they parse as that entry |
| FontPrinter.LineBreakLetterUnread | 2/2.py:23-26 | a file holding a line-break letter, "\n\n", is read as two empty lines, so nothing is loaded |
| FontPrinter.ParseRowCounts | 2/2.py:29-32 | every letter the parser adds has exactly `n` rows, and no letter is dropped |
| FontPrinter.ParseShift | 2/2.py:23-32 | the parse from a position does not depend on earlier lines |
| FontPrinter.ParseBlock | 2/2.py:27-32 | one letter line and its rows are read as that entry, and the parse goes on after them |
| FontPrinter.ParseSerialized | 2/2.py:23-32 | the lines written from entries without line breaks parse to those entries' table, then go on into what follows |
| FontPrinter.FontRoundTrip | 2/2.py:22-32 | a well-formed font file, whose letters and rows hold no line break, parses to exactly its table, with no error |
| FontPrinter.BadLetterLine | 2/2.py:27-28 | a letter line of the wrong length is an error, and the letters before it remain loaded |
| FontPrinter.TableLastWins | 2/2.py:30-32 | in the table, a letter maps to its last entry's rows |
| FontPrinter.RepeatedLetterOverwrites | 2/2.py:30-32 | a repeated letter overwrites the earlier glyph |
| FontPrinter.Replace | 2/2.py:40 | with a one-character symbol, each '*' becomes it and every other character is kept in place; no '*' remains unless the symbol has one; a row without '*', or the symbol "*", changes nothing |
| FontPrinter.ReplaceConcat | 2/2.py:40 | replacing distributes over concatenation |
| FontPrinter.Glyph | 2/2.py:39-41 | definition: glyph row `i` is drawn at line `yShift + i + 1` and column `x`, with '*' replaced by the symbol as `Replace` states |
| FontPrinter.GlyphInBand | 2/2.py:39-41 | a glyph of `n` rows draws only on lines `yShift + 1` to `yShift + n` |
| FontPrinter.Known | 2/2.py:36-38 | the count of characters with a glyph is at most the text length |
| FontPrinter.Render | 2/2.py:36-42 | the character loop of `print`: `RenderAdvance`, `RenderConcat`, `UnknownSkipped` and `RenderRowsInBand` state where it draws and how far the column moves |
| FontPrinter.RenderAdvance | 2/2.py:36-42 | the column ends `size + 1` further on per known character, and no further |
| FontPrinter.RenderConcat | 2/2.py:36-42 | drawing a concatenation draws the second part where the first left the column |
| FontPrinter.UnknownSkipped | 2/2.py:37-38 | characters without a glyph draw nothing and leave the column alone |
| FontPrinter.RenderRowsInBand | 2/2.py:39-41 | when every glyph is `n` rows tall, every draw lands on lines `yShift + 1` to `yShift + n`, `n` draws per known character |
| FontPrinter.ReadRows | 2/2.py:31-32 | the inner read loop yields exactly `Rows` |
| FontPrinter.DrawText | 2/2.py:36-42 | the character loop yields exactly the draws and final column of `Render` |
| FontPrinter.PrinterClass.constructor | 2/2.py:9 | the class-level table starts empty |
| FontPrinter.PrinterClass.UpdateFont | 2/2.py:19-32 | a missing file fails before anything changes; otherwise the table is emptied and refilled as `ParseFrom` says, with "build wrong" exactly on a bad letter line |
| FontPrinter.PrinterClass.SetPrint | 2/2.py:44-54 | loads the font, draws as `Render` from the given column and leaves the final column in the class's `xShift`; a failed load draws nothing and leaves `xShift` alone; the symbol defaults to "*" |
| FontPrinter.Printer.constructor | 2/2.py:11-16 | the printer keeps its colour, size, position and symbol, which defaults to "*" |
| FontPrinter.Printer.Print | 2/2.py:34-42 | loads the font for the printer's size, then draws as `Render` from the printer's column, which moves on past the last glyph; a failed load draws nothing |

## Left out

- All console output is left out. That covers `print`, the ANSI colour and cursor escape strings, the `input()` loops, and what the `main` and `demonstrate_injector` drivers print. Their call sequences are modelled by `DevelopmentScenario`, `ProductionScenario`, `ProductionEmails`, `KeyboardScenario` and `SampleAndHello`. These carry assertions but no contract, so they have no row above. The printer's draws are values, and `__enter__`/`__exit__` of `Printer` only print a colour.
- All file I/O is left out: `output.log`, `bindings.json`, `users.json`, `session.json` and `font*.txt`. Their contents are parameters or fields: `stored`, `saved`, `items`, `session` and `file`. JSON encoding and decoding is not modelled.
- Font entries whose letter or rows contain '\n' or '\r' cannot be stored in a font file, since `readline()` splits there. The round-trip lemmas exclude them (`Writable`), and `LineBreakLetterUnread` shows what happens to such a letter.
- The font file name `font{size}.txt` is not modelled. The caller passes the contents of the file the size names.
- Reflection in 7.py is not modelled. `get_type_hints`, `inspect` and the `callable`/`isinstance(type)` dispatch are replaced by the explicit variant `Implementation`. A class that `get_type_hints` cannot read is a `Constructor` with no hints.
- Fixed parameters in 7.py are assumed to be strings. A non-string value is an opaque literal.
- A factory's own behaviour in 7.py is not inspected. It yields one new object holding its arguments.
- DependencyInjection.Injector.GetInstance is limited to requests from which no dependency cycle is reachable (`RankedFor`). Such a cycle makes the source recurse until `RecursionError`, and that error is not modelled. The ranking ignores the caches. It therefore also excludes a terminating case: a reachable cycle that the source cuts short because a key on it is already cached. Example: a Singleton `A` is resolved while `B` is unregistered, then `B` is registered with a hint of type `A`.
- A constructor's own side effects (SqlDatabase logging its connection, for example) and exceptions raised inside it are not modelled.
- VirtualKeyboard.Keyboard.Press and its siblings treat VolumeUp/VolumeDown execute and undo as buffer no-ops. They only print a message with the percentage.
- VirtualKeyboard.Keyboard.constructor does not model a saved file whose values are not strings. In Python `startswith` would raise.
- VirtualKeyboard.RoundTrip holds only for print chars without ':'. `ColonIsLost` shows that the ':' is lost.
- `ReLogFilter` is not modelled. It depends on Python's `re` engine.
- `SocketHandler` is not modelled. It is network I/O.
- The three remaining handlers' effects are reduced to being called. Which handlers raise on a text is a parameter.
- UserStore.UserRepository is the generic `DataRepository` specialised to `User`. The stored dict and its `User(**d)` are one value, so malformed records in the file are not modelled.
- `@dataclass(order=True)` on `User` is not modelled, because nothing uses it.
- The `repr=False` display setting on `password` is not modelled, because it only matters for display.
- UserStore.AuthService.constructor reduces the session file to its `login` value. A session whose login is not a string is not modelled.
- Python truthiness of `User` objects is modelled as presence. A dataclass without `__bool__` is always true.
