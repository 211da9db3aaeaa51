# Python override analyzer — a Dafny model

This project models the matching core of the Python override analyzer
(`python/analyze_override.py`). Given one Python file and the Python files of
its workspace, the analyzer reports two kinds of relation:

- `child_override`: a method of a class in the file overrides the method of
  the same name in one of the class's direct bases. The base is looked up by
  name in the first workspace file that defines it.
- `parent_overridden`: a method of a class in the file is overridden by a
  subclass defined in another workspace file.

The model keeps the analyzer's own structure:

| module | what it holds |
|---|---|
| `PyDict` | Python's insertion-ordered `dict`. Assigning to a present key keeps its position; a new key is appended. |
| `PyAst` | The parsed input: class statements with their bases and body, in `ast.walk` order. `None` stands for a file that cannot be read or parsed. |
| `ClassTables` | The class table of a file (`_get_class_methods_from_ast`). |
| `Signatures` | Signature rendering (`_get_function_signature`), with a reader that recovers name and parameters. |
| `BaseLookup` | The base-class method lookup (`_find_base_class_methods`). |
| `Relations` | The two record shapes. |
| `Forward` | `_find_overridden_methods`. |
| `Reverse` | `_find_overriding_methods`. |
| `Analyzer` | `analyze_file`. |
| `Fixtures` | The repository's example files `tests/base.py` and `tests/child.py` as parsed input, and facts about their analysis. |

Every loop of the analyzer is a `method` with a `while` loop. Each such method
is proved equal to a recursive specification function, for example
`ForwardRecords` or `BaseMethods`. The properties the analyzer promises are
proved as lemmas about those functions. The main ones are:

- each kind of record is emitted exactly when its matching condition holds
  (the `Sound`/`Complete` lemma pairs);
- the field provenance of each record;
- the first-definer rule of the base lookup;
- the layout of the final result.

A workspace is the sequence of its files in directory-walk order. Each file
is its path plus its parsed classes.

## Model

| member | source | states |
|---|---|---|
| PyDict.Put | python/analyze_override.py:63-66 | `d[k] = v`. The result is a valid dict that maps `k` to `v` and leaves every other key and value unchanged. A present key keeps its position; a new key is appended to the iteration order. |
| PyDict.Empty | python/analyze_override.py:45 | `{}` is a valid dict with no keys. |
| Signatures.GetFunctionSignature | python/analyze_override.py:78-86 | Collecting the parameter names one at a time and joining them gives `Render(name, args)`. That is `name(` + the names joined by `", "` + `)`, or `name()` when the parameters cannot be read. |
| Signatures.Render | python/analyze_override.py:84-86 | A signature starts with the method name, then `(`, and ends with `)`. |
| Signatures.RenderParse | python/analyze_override.py:80-84 | Reading a rendered signature back gives exactly the method name and the parameter names in order. Rendering is therefore injective on identifiers. |
| Signatures.RenderFallback | python/analyze_override.py:85-86 | The fallback signature `name()` reads back as the name with no parameters. |
| Signatures.SplitJoin | python/analyze_override.py:84 | Splitting `", ".join(parts)` at `", "` gives `parts` back when no part contains a separator. |
| ClassTables.GetClassMethodsFromAst | python/analyze_override.py:42-76 | The nested loops build exactly `ClassTableOf(parsed)`. This is the empty table for an unreadable file and otherwise one `classes_info[name] = ...` per class statement in walk order. Each method dict holds one entry per direct `def`. |
| ClassTables.ClassTableOf | python/analyze_override.py:45-76 | The table and every method dict in it are valid dicts. A file that cannot be read or parsed has an empty table. |
| ClassTables.BaseNamesMembers | python/analyze_override.py:57-59 | A name is among a class's recorded bases exactly when the class lists it as a plain name. Other base expressions are dropped. |
| ClassTables.MethodsOfDomain | python/analyze_override.py:61-66 | A method name is in a class's method dict exactly when some direct `def` of the body has that name. |
| ClassTables.MethodsOfLast | python/analyze_override.py:61-66 | The entry for a name is the line and signature of the last `def` of that name, so a later duplicate overwrites an earlier one. |
| ClassTables.TableOfDomain | python/analyze_override.py:53-72 | A class name is in the table exactly when some class statement of the file has it. |
| ClassTables.TableOfLast | python/analyze_override.py:68-72 | The entry for a class name holds the methods, bases and line of the last class statement with that name. |
| BaseLookup.FindBaseClassMethods | python/analyze_override.py:88-111 | Walking the files in order and stopping at the first file that defines the class yields exactly `BaseMethods(base, ws)`. |
| BaseLookup.CopyMethods | python/analyze_override.py:98-106 | Copying a class's methods in their order and tagging each with file and class yields `Tagged(methods, file, cls)`. |
| BaseLookup.Tagged | python/analyze_override.py:99-106 | The copied dict has the same keys in the same order. Each entry keeps the method's line and signature and adds the file path and class name. |
| BaseLookup.BaseMethodsFirstDefiner | python/analyze_override.py:94-107 | If file `i` is the first file that defines the class, the result is that file's methods of the class, tagged with its path. |
| BaseLookup.BaseMethodsUndefined | python/analyze_override.py:91-111 | If no file defines the class, the result is the empty dict. |
| BaseLookup.BaseMethodsIgnoresLater | python/analyze_override.py:107 | Once some file defines the class, files after it never change the result. |
| Forward.FindOverriddenMethods | python/analyze_override.py:113-149 | The loops over classes, bases and methods, with one base lookup per base, yield exactly `ForwardRecords(table, ws)`. |
| Forward.CheckMethods | python/analyze_override.py:129-145 | For one class and one base, the records follow the class's method order, one for each method the base's dict also has. |
| Forward.ForwardRecordsSound | python/analyze_override.py:121-145 | Every `child_override` record has a class `c` of the file, a direct base `b` of `c` and a method `m` of `c` that `b`'s looked-up dict also has. Its class, method, line and signature come from `c.m`. Its base file path, base line and base signature come from the looked-up method, and its base file is the basename of that path. |
| Forward.ForwardRecordsComplete | python/analyze_override.py:121-145 | Conversely, each such class, direct base and shared method yields its record. |
| Forward.ForwardRecordsKind | python/analyze_override.py:143 | Every forward record is a `child_override` about a class of the analysed file. |
| Forward.ForwardRecordsOnlyInherited | python/analyze_override.py:131 | A method that none of its class's direct bases has is never reported, so there is no transitive ancestry. |
| Forward.MatchMethodsSound | python/analyze_override.py:129-145 | A record from one class/base pair names a method that is in both dicts, with its fields as above. |
| Forward.MatchMethodsComplete | python/analyze_override.py:129-145 | Every method in both dicts yields its record. |
| Forward.ForwardBasesSound | python/analyze_override.py:123-145 | A record from one class names one of its bases and a shared method. |
| Forward.ForwardBasesComplete | python/analyze_override.py:123-145 | Every base of the class and every shared method yields its record. |
| Forward.ForwardClassesSound | python/analyze_override.py:121-145 | A record from a list of classes names one of those classes. |
| Forward.ForwardClassesComplete | python/analyze_override.py:121-145 | Every class in the list contributes its records. |
| Reverse.FindOverridingMethods | python/analyze_override.py:151-198 | The loops over the other files, their classes, their bases and their methods yield exactly `ReverseRecords(target, table, ws)`. |
| Reverse.CheckFile | python/analyze_override.py:169-192 | For one other file, the records follow its class order, then base order, then method order. |
| Reverse.CheckOverriders | python/analyze_override.py:176-192 | For one subclass and one base of the analysed file, there is one record per subclass method that the base also defines, in the subclass's method order. |
| Reverse.ReverseRecordsSound | python/analyze_override.py:160-192 | Every `parent_overridden` record has a workspace file whose path differs from the analysed one, a class `c` in it, a direct base `b` of `c` that is a class of the analysed file, and a method `m` both define. Its class, line and signature come from `b.m`. Its child, child file path, child line and child signature come from `c.m`, and its child file is the basename of that path. |
| Reverse.ReverseRecordsComplete | python/analyze_override.py:160-192 | Conversely, each such file, class, base and shared method yields its record. |
| Reverse.ReverseRecordsSkipTarget | python/analyze_override.py:161-162 | A reverse record is a `parent_overridden` whose child file path is never the analysed path, so subclasses in the same file give no reverse record. |
| Reverse.MatchOverridersSound | python/analyze_override.py:176-192 | A record from one subclass/base pair names a method that both define. |
| Reverse.MatchOverridersComplete | python/analyze_override.py:176-192 | Every method both define yields its record. |
| Reverse.ReverseBasesSound | python/analyze_override.py:171-192 | A record from one subclass names one of its bases that is a class of the analysed file. |
| Reverse.ReverseBasesComplete | python/analyze_override.py:171-192 | Every such base and every shared method yields its record. |
| Reverse.ReverseClassesSound | python/analyze_override.py:169-192 | A record from one file names one of its classes. |
| Reverse.ReverseClassesComplete | python/analyze_override.py:169-192 | Every class of the file contributes its records. |
| Analyzer.AnalyzeFile | python/analyze_override.py:200-214 | The result is the forward records followed by the reverse records. |
| Analyzer.AnalysisLayout | python/analyze_override.py:206-212 | The length is the sum of the two parts. The first part is the forward list and the rest is the reverse list, each in its own order. A record is a `child_override` exactly when it lies in the first part. |
| Analyzer.AnalysisMembers | python/analyze_override.py:121-192 | A record is in the result exactly when it is a `child_override` witnessed by a class, base and method of the file, or a `parent_overridden` witnessed by another file's subclass. |
| Analyzer.KindsSplit | python/analyze_override.py:212 | In a list of `child_override` records followed by `parent_overridden` records, the kind of a record tells which part it is in. |
| Paths.BasenameIsLastComponent | python/analyze_override.py:138-139 | `os.path.basename` is the longest suffix of the path without a `/`. |
| Fixtures.DogSpeakOverridesAnimal | tests/child.py:15 | Analysing `tests/child.py` reports that `Dog.speak` (line 15) overrides `Animal.speak` at line 12 of `tests/base.py`, with signatures `speak(self)`. |
| Fixtures.DogFetchNotReported | tests/child.py:23 | No record of the analysis of `tests/child.py` is about `Dog.fetch`, because `Animal` has no `fetch`. |
| Fixtures.CatClimbNotReported | tests/child.py:35 | No record is about `Cat.climb`, because `Animal` has no `climb`. |
| Fixtures.CarHonkNotReported | tests/child.py:51 | No record is about `Car.honk`, because `Vehicle` has no `honk`. |
| Fixtures.ElectricCarChargeNotReported | tests/child.py:67 | No record is about `ElectricCar.charge`, because `Car` has no `charge`. |
| Fixtures.DogInitOverridesAnimal | tests/child.py:11 | `Dog.__init__` (line 11, `__init__(self, name, breed)`) overrides `Animal.__init__` at line 9 of `tests/base.py` (`__init__(self, name)`). |
| Fixtures.DogMoveOverridesAnimal | tests/child.py:19 | `Dog.move` (line 19) overrides `Animal.move` at line 16 of `tests/base.py`. |
| Fixtures.CatSpeakOverridesAnimal | tests/child.py:31 | `Cat.speak` (line 31) overrides `Animal.speak` at line 12 of `tests/base.py`. |
| Fixtures.CarInitOverridesVehicle | tests/child.py:43 | `Car.__init__` (line 43, `__init__(self, brand, model)`) overrides `Vehicle.__init__` at line 28 of `tests/base.py` (`__init__(self, brand)`). |
| Fixtures.CarStartOverridesVehicle | tests/child.py:47 | `Car.start` (line 47) overrides `Vehicle.start` at line 31 of `tests/base.py`. |
| Fixtures.ElectricCarInitOverridesCar | tests/child.py:59 | `ElectricCar.__init__` (line 59) overrides `Car.__init__`, found at line 43 of `tests/child.py` itself. |
| Fixtures.ElectricCarStartOverridesCar | tests/child.py:63 | `ElectricCar.start` (line 63) overrides `Car.start`, found at line 47 of `tests/child.py` itself. The lookup finds `Car` in the second file because `tests/base.py` does not define it. |
| Fixtures.ChildHasNoReverseRecords | tests/child.py:56 | Analysing `tests/child.py` yields no `parent_overridden` record. The classes of `tests/base.py` have no bases, and the subclass `ElectricCar` of `Car` lives in the analysed file. |
| Fixtures.BaseClassNames | tests/base.py:6-25 | The class table of `tests/base.py` has exactly the classes `Animal` and `Vehicle`. |
| Fixtures.CarFound | tests/child.py:40-51 | Looking up `Car` in the workspace returns the methods of `Car` in `tests/child.py`, tagged with that path. |
| Fixtures.DogInitSignature | tests/child.py:11 | `def __init__(self, name, breed)` renders as `__init__(self, name, breed)`. |

## Left out

- Jedi import and `jedi.Project` setup (python/analyze_override.py:15-20, 35-40): a foreign library whose project object the matching never uses.
- Reading files and `ast.parse` (python/analyze_override.py:48-51): each file comes already parsed, as its class statements in `ast.walk` order. A read or parse failure is `None` and gives the empty table, as the `except` at :73-74 does. A failure partway through the walk would leave a partly built table; the model does not have that case.
- Nested classes: `ast.walk` also visits classes nested in functions or classes. They appear in the input sequence wherever the walk would put them, so the walk order is part of the input and not computed.
- `async def` members and every other statement of a class body are `OtherStmt`, since `isinstance(item, ast.FunctionDef)` at :62 rejects them. Base expressions other than plain names (`module.Base`, subscripts) are `OtherExpr`.
- Argument extraction: `args == None` stands for the `except` at :85-86. A real `ast.FunctionDef` always has `args.args`, so this branch is modelled but does not occur in practice. `args` holds the names of `args.args` only, the positional-or-keyword parameters, as :82-83 reads them. Positional-only parameters (before `/`), `*args`, keyword-only parameters and `**kwargs` are never collected: `def m(self, /, x)` renders as `m(x)` and `def m(self, *a, k)` as `m(self)`. The input records what `args.args` holds, so the model shows the same omissions.
- `Path(...).rglob("*.py")` and `Path.resolve()` (python/analyze_override.py:94, 160, 202): the workspace is a given sequence of files in walk order, and the analysed path is taken as already resolved. The analysed file is passed separately, and nothing requires its entry in the workspace to hold the same classes.
- A failing directory walk: the model takes the `rglob` walks at python/analyze_override.py:94 and :160 to always succeed. In the source, an error raised by the walk at :94 is outside the `try` at :95-109 and leaves `_find_base_class_methods`. It is caught by the `try` at :117-147 of `_find_overridden_methods`, which then returns the records collected so far. An error from the walk at :160 is caught at :195-196, and the `parent_overridden` records found so far are returned. The model does not produce these cut-short lists.
- The other `except` branches (python/analyze_override.py:108-109, 193-194 and 215-216) guard only calls to `_get_class_methods_from_ast`, which swallows all exceptions, and dict and list operations on values it built. Given a walk that succeeds, they cannot be reached, so the model never produces the `{"error": ...}` record of `analyze_file`.
- Paths are POSIX paths: `Basename` splits only at `/`. On Windows, `os.path.basename` (:138 and :185) also splits at `\` and after a drive letter such as `C:`, so the `base_file` and `child_file` fields of a Windows path are not modelled.
- `main`, argparse and JSON printing (python/analyze_override.py:219-246), and the unused `use_cache`/`cache_dir` parameters (:29-32): command-line plumbing and output serialisation. A record's `type` field is the constructor of `Relation`.
- The worker-process link, the result cache and the debouncer of the editor extension are not part of this model.
- The loops of `_find_base_class_methods`, `_find_overridden_methods` and `_find_overriding_methods` are split into helper methods (`CopyMethods`, `CheckMethods`, `CheckFile`, `CheckOverriders`). The order of iteration and of appends is unchanged.
- Fixtures: `tests/base.py` and `tests/child.py` are given as parsed input at absolute paths under `/ws/tests/`, a workspace layout chosen for the model. Each of the eight `child_override` records the file produces is proved present, and each of the four methods no base defines (`fetch`, `climb`, `honk`, `charge`) is proved absent. The order of the list, its length, and that it holds no other record are not stated.
