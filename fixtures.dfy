/** The repository's two example files, tests/base.py and tests/child.py, as
    parsed input, and what the analysis reports for them. */
module Fixtures {
  import opened PyAst
  import opened PyDict
  import opened Signatures
  import opened Paths
  import opened ClassTables
  import opened BaseLookup
  import opened Relations
  import opened Forward
  import opened Reverse
  import opened Analyzer

  function Def(name: string, line: nat, args: seq<string>): Stmt {
    FunctionDef(name, line, Some(args))
  }

  const BasePath := "/ws/tests/base.py"
  const ChildPath := "/ws/tests/child.py"

  // tests/base.py
  const AnimalDef := ClassDef("Animal", 6, [], [OtherStmt, Def("__init__", 9, ["self", "name"]),
    Def("speak", 12, ["self"]), Def("move", 16, ["self"]), Def("eat", 20, ["self"])])
  const VehicleDef := ClassDef("Vehicle", 25, [], [OtherStmt, Def("__init__", 28, ["self", "brand"]),
    Def("start", 31, ["self"]), Def("stop", 35, ["self"])])
  const BasePy := SourceFile(BasePath, Some([AnimalDef, VehicleDef]))

  // tests/child.py
  const DogDef := ClassDef("Dog", 8, [Name("Animal")], [OtherStmt, Def("__init__", 11, ["self", "name", "breed"]),
    Def("speak", 15, ["self"]), Def("move", 19, ["self"]), Def("fetch", 23, ["self"])])
  const CatDef := ClassDef("Cat", 28, [Name("Animal")], [OtherStmt, Def("speak", 31, ["self"]), Def("climb", 35, ["self"])])
  const CarDef := ClassDef("Car", 40, [Name("Vehicle")], [OtherStmt, Def("__init__", 43, ["self", "brand", "model"]),
    Def("start", 47, ["self"]), Def("honk", 51, ["self"])])
  const ElectricCarDef := ClassDef("ElectricCar", 56, [Name("Car")], [OtherStmt,
    Def("__init__", 59, ["self", "brand", "model", "battery_capacity"]), Def("start", 63, ["self"]), Def("charge", 67, ["self"])])
  const ChildPy := SourceFile(ChildPath, Some([DogDef, CatDef, CarDef, ElectricCarDef]))

  const Workspace := [BasePy, ChildPy]


  const SpeakSig := Render("speak", Some(["self"]))

  /** Animal's `speak` (tests/base.py) is in its method dict. */
  lemma AnimalSpeak()
    ensures "speak" in MethodsOf(AnimalDef.body).entries
    ensures MethodsOf(AnimalDef.body).entries["speak"] == MethodInfo(12, SpeakSig)
  {
    var b := AnimalDef.body;
    assert !DefinesMethod(b[3], "speak") && !DefinesMethod(b[4], "speak");
    MethodsOfLast(b, 2);
  }

  /** Dog's `speak` (tests/child.py) is in its method dict. */
  lemma DogSpeak()
    ensures "speak" in MethodsOf(DogDef.body).entries
    ensures MethodsOf(DogDef.body).entries["speak"] == MethodInfo(15, SpeakSig)
  {
    var b := DogDef.body;
    assert !DefinesMethod(b[3], "speak") && !DefinesMethod(b[4], "speak");
    MethodsOfLast(b, 2);
  }

  /** Dog is in the class table of tests/child.py, with base Animal. */
  lemma ChildTableDog()
    ensures "Dog" in TableAt(ChildPy).entries
    ensures TableAt(ChildPy).entries["Dog"] == InfoOf(DogDef)
    ensures InfoOf(DogDef).bases == ["Animal"]
  {
    var cs := [DogDef, CatDef, CarDef, ElectricCarDef];
    assert !DefinesClass(cs[1], "Dog") && !DefinesClass(cs[2], "Dog") && !DefinesClass(cs[3], "Dog");
    TableOfLast(cs, 0);
    BaseNamesSingle("Animal");
  }

  lemma BaseNamesSingle(id: string)
    ensures BaseNames([Name(id)]) == [id]
  {
    assert [Name(id)][..0] == [];
  }

  /** Animal is in the class table of tests/base.py. */
  lemma BaseTableAnimal()
    ensures "Animal" in TableAt(BasePy).entries
    ensures TableAt(BasePy).entries["Animal"] == InfoOf(AnimalDef)
  {
    var cs := [AnimalDef, VehicleDef];
    assert !DefinesClass(cs[1], "Animal");
    TableOfLast(cs, 0);
  }

  /** Looking up Animal finds its methods in tests/base.py, the first file. */
  lemma AnimalFound()
    ensures BaseMethods("Animal", Workspace) == Tagged(MethodsOf(AnimalDef.body), BasePath, "Animal")
  {
    BaseTableAnimal();
    BaseMethodsFirstDefiner("Animal", Workspace, 0);
  }

  /** Analysing tests/child.py reports that Dog.speak (line 15) overrides
      Animal.speak (line 12 of tests/base.py). */
  lemma DogSpeakOverridesAnimal()
    ensures ChildOverride("Dog", "speak", 15, "Animal", Basename(BasePath), BasePath, 12, SpeakSig, SpeakSig)
            in Analysis(ChildPy, Workspace)
  {
    var table := ClassTableOf(ChildPy.parsed);
    var r := ChildOverride("Dog", "speak", 15, "Animal", Basename(BasePath), BasePath, 12, SpeakSig, SpeakSig);
    ChildTableDog();
    DogSpeak();
    AnimalSpeak();
    AnimalFound();
    assert IsChildOverride(table, Workspace, r, "Dog", "Animal", "speak");
    ForwardRecordsComplete(table, Workspace, "Dog", "Animal", "speak", r);
  }

  /** No statement of Animal's body (tests/base.py) defines `fetch`. */
  lemma AnimalDefinesNoFetch(i: nat)
    requires i < |AnimalDef.body|
    ensures !DefinesMethod(AnimalDef.body[i], "fetch")
  {
    assert "speak"[0] != "fetch"[0];
  }

  /** Animal (tests/base.py) has no `fetch`. */
  lemma AnimalHasNoFetch()
    ensures "fetch" !in MethodsOf(AnimalDef.body).entries
  {
    MethodsOfDomain(AnimalDef.body, "fetch");
    if "fetch" in MethodsOf(AnimalDef.body).entries {
      var i :| 0 <= i < |AnimalDef.body| && DefinesMethod(AnimalDef.body[i], "fetch");
      AnimalDefinesNoFetch(i);
    }
  }

  /** Looking up Animal's methods in the workspace yields no `fetch`. */
  lemma AnimalLookupHasNoFetch()
    ensures "fetch" !in BaseMethods("Animal", Workspace).entries
  {
    AnimalFound();
    AnimalHasNoFetch();
  }

  /** Dog.fetch is not a method of Animal, so no record of the analysis is
      about it. */
  lemma DogFetchNotReported(r: Relation)
    requires r in Analysis(ChildPy, Workspace)
    ensures !(r.cls == "Dog" && r.methodName == "fetch")
  {
    ChildAnalysisIsForward();
    ChildTableDog();
    AnimalLookupHasNoFetch();
    ForwardRecordsOnlyInherited(TableAt(ChildPy), Workspace, "Dog", "fetch", r);
  }

  /** The classes of tests/base.py are Animal and Vehicle, in that order. */
  lemma BaseClassNames(c: string)
    ensures c in TableAt(BasePy).entries <==> c == "Animal" || c == "Vehicle"
  {
    var cs := [AnimalDef, VehicleDef];
    assert cs[..1] == [AnimalDef] && cs[..1][..0] == [];
    assert ClassNames(cs[..1]) == ["Animal"];
    assert ClassNames(cs) == ["Animal", "Vehicle"];
    TableOfNames(cs, c);
  }

  /** Vehicle is in the class table of tests/base.py. */
  lemma BaseTableVehicle()
    ensures "Vehicle" in TableAt(BasePy).entries
    ensures TableAt(BasePy).entries["Vehicle"] == InfoOf(VehicleDef)
  {
    TableOfLast([AnimalDef, VehicleDef], 1);
  }

  /** Neither class of tests/base.py has a base. */
  lemma BaseTableNoBases(c: string)
    requires c in TableAt(BasePy).entries
    ensures TableAt(BasePy).entries[c].bases == []
  {
    BaseClassNames(c);
    if c == "Animal" {
      BaseTableAnimal();
    } else {
      BaseTableVehicle();
    }
  }

  /** Analysing tests/child.py yields no `parent_overridden` record: the
      classes of tests/base.py have no bases, and the subclass ElectricCar of
      Car is in the analysed file itself. */
  lemma ChildHasNoReverseRecords()
    ensures ReverseRecords(ChildPath, ClassTableOf(ChildPy.parsed), Workspace) == []
  {
    var table := ClassTableOf(ChildPy.parsed);
    var rev := ReverseRecords(ChildPath, table, Workspace);
    if rev != [] {
      ReverseRecordsSound(ChildPath, table, Workspace, rev[0]);
      var i, c, b, m :| IsParentOverridden(ChildPath, table, Workspace, rev[0], i, c, b, m);
      assert i == 0;
      BaseTableNoBases(c);
      assert false;
    }
  }

  /** Car is in the class table of tests/child.py, with base Vehicle. */
  lemma ChildTableCar()
    ensures "Car" in TableAt(ChildPy).entries
    ensures TableAt(ChildPy).entries["Car"] == InfoOf(CarDef)
    ensures InfoOf(CarDef).bases == ["Vehicle"]
  {
    var cs := [DogDef, CatDef, CarDef, ElectricCarDef];
    assert !DefinesClass(cs[3], "Car");
    TableOfLast(cs, 2);
    BaseNamesSingle("Vehicle");
  }

  /** In a two-file workspace, a class only the second file defines is
      looked up there. */
  lemma FoundInSecond(base: string, first: SourceFile, second: SourceFile)
    requires !Defines(first, base) && Defines(second, base)
    ensures BaseMethods(base, [first, second]) == Tagged(TableAt(second).entries[base].methods, second.path, base)
  {
    BaseMethodsFirstDefiner(base, [first, second], 1);
  }

  /** ElectricCar's base Car is found in tests/child.py, the second file. */
  lemma CarFound()
    ensures BaseMethods("Car", Workspace) == Tagged(MethodsOf(CarDef.body), ChildPath, "Car")
  {
    BaseClassNames("Car");
    ChildTableCar();
    FoundInSecond("Car", BasePy, ChildPy);
  }

  const StartSig := Render("start", Some(["self"]))

  /** ElectricCar is in the class table of tests/child.py, with base Car. */
  lemma ChildTableElectricCar()
    ensures "ElectricCar" in TableAt(ChildPy).entries
    ensures TableAt(ChildPy).entries["ElectricCar"] == InfoOf(ElectricCarDef)
    ensures InfoOf(ElectricCarDef).bases == ["Car"]
  {
    TableOfLast([DogDef, CatDef, CarDef, ElectricCarDef], 3);
    BaseNamesSingle("Car");
  }

  /** Car's and ElectricCar's `start` (tests/child.py). */
  lemma StartMethods()
    ensures "start" in MethodsOf(CarDef.body).entries
    ensures MethodsOf(CarDef.body).entries["start"] == MethodInfo(47, StartSig)
    ensures "start" in MethodsOf(ElectricCarDef.body).entries
    ensures MethodsOf(ElectricCarDef.body).entries["start"] == MethodInfo(63, StartSig)
  {
    assert !DefinesMethod(CarDef.body[3], "start");
    MethodsOfLast(CarDef.body, 2);
    assert !DefinesMethod(ElectricCarDef.body[3], "start");
    MethodsOfLast(ElectricCarDef.body, 2);
  }

  /** Analysing tests/child.py reports that ElectricCar.start (line 63)
      overrides Car.start, found at line 47 of tests/child.py itself. */
  lemma ElectricCarStartOverridesCar()
    ensures ChildOverride("ElectricCar", "start", 63, "Car", Basename(ChildPath), ChildPath, 47, StartSig, StartSig)
            in Analysis(ChildPy, Workspace)
  {
    var table := ClassTableOf(ChildPy.parsed);
    var r := ChildOverride("ElectricCar", "start", 63, "Car", Basename(ChildPath), ChildPath, 47, StartSig, StartSig);
    ChildTableElectricCar();
    StartMethods();
    CarFound();
    assert IsChildOverride(table, Workspace, r, "ElectricCar", "Car", "start");
    ForwardRecordsComplete(table, Workspace, "ElectricCar", "Car", "start", r);
  }

  /** The signature the analyzer renders for `def speak(self)`. */
  lemma SpeakSignature()
    ensures SpeakSig == "speak(self)"
  {
  }

  /** The signature the analyzer renders for Dog's `__init__`
      (tests/child.py). */
  lemma DogInitSignature()
    ensures Render("__init__", Some(["self", "name", "breed"])) == "__init__(self, name, breed)"
  {
    assert ["self", "name", "breed"][1..] == ["name", "breed"];
    assert ["name", "breed"][1..] == ["breed"];
  }

  /** The analysis of tests/child.py is its forward search alone. */
  lemma ChildAnalysisIsForward()
    ensures Analysis(ChildPy, Workspace) == ForwardRecords(TableAt(ChildPy), Workspace)
  {
    ChildHasNoReverseRecords();
    assert ForwardRecords(TableAt(ChildPy), Workspace) + [] == ForwardRecords(TableAt(ChildPy), Workspace);
  }

  const MoveSig := Render("move", Some(["self"]))
  const AnimalInitSig := Render("__init__", Some(["self", "name"]))
  const DogInitSig := Render("__init__", Some(["self", "name", "breed"]))
  const VehicleInitSig := Render("__init__", Some(["self", "brand"]))
  const CarInitSig := Render("__init__", Some(["self", "brand", "model"]))
  const ElectricCarInitSig := Render("__init__", Some(["self", "brand", "model", "battery_capacity"]))

  /** A method that class `c` of the analysed file defines and that the
      lookup of its base `b` also finds is reported. */
  lemma Reported(target: SourceFile, ws: seq<SourceFile>, c: string, b: string, m: string,
                 mine: MethodInfo, found: BaseMethod)
    requires c in TableAt(target).entries && b in TableAt(target).entries[c].bases
    requires m in TableAt(target).entries[c].methods.entries
    requires TableAt(target).entries[c].methods.entries[m] == mine
    requires m in BaseMethods(b, ws).entries && BaseMethods(b, ws).entries[m] == found
    ensures ChildRecord(c, m, mine, b, found) in Analysis(target, ws)
  {
    ForwardRecordsComplete(TableAt(target), ws, c, b, m, ChildRecord(c, m, mine, b, found));
  }

  /** The entry the lookup of `b` has for `m`, when it returned the methods
      `methods` of one class tagged with `file`. */
  lemma LookedUp(b: string, ws: seq<SourceFile>, methods: Dict<MethodInfo>, file: string, m: string, info: MethodInfo)
    requires Valid(methods) && BaseMethods(b, ws) == Tagged(methods, file, b)
    requires m in methods.entries && methods.entries[m] == info
    ensures m in BaseMethods(b, ws).entries
    ensures BaseMethods(b, ws).entries[m] == BaseMethod(info.line, info.signature, file, b)
  {
  }

  /** Animal's `__init__` (tests/base.py). */
  lemma AnimalInit()
    ensures "__init__" in MethodsOf(AnimalDef.body).entries
    ensures MethodsOf(AnimalDef.body).entries["__init__"] == MethodInfo(9, AnimalInitSig)
  {
    var b := AnimalDef.body;
    assert !DefinesMethod(b[2], "__init__") && !DefinesMethod(b[3], "__init__") && !DefinesMethod(b[4], "__init__");
    MethodsOfLast(b, 1);
  }

  /** Animal's `move` (tests/base.py). */
  lemma AnimalMove()
    ensures "move" in MethodsOf(AnimalDef.body).entries
    ensures MethodsOf(AnimalDef.body).entries["move"] == MethodInfo(16, MoveSig)
  {
    var b := AnimalDef.body;
    assert !DefinesMethod(b[4], "move");
    MethodsOfLast(b, 3);
  }

  /** Dog's `__init__` (tests/child.py). */
  lemma DogInit()
    ensures "__init__" in MethodsOf(DogDef.body).entries
    ensures MethodsOf(DogDef.body).entries["__init__"] == MethodInfo(11, DogInitSig)
  {
    var b := DogDef.body;
    assert !DefinesMethod(b[2], "__init__") && !DefinesMethod(b[3], "__init__") && !DefinesMethod(b[4], "__init__");
    MethodsOfLast(b, 1);
  }

  /** Dog's `move` (tests/child.py). */
  lemma DogMove()
    ensures "move" in MethodsOf(DogDef.body).entries
    ensures MethodsOf(DogDef.body).entries["move"] == MethodInfo(19, MoveSig)
  {
    var b := DogDef.body;
    assert !DefinesMethod(b[4], "move");
    MethodsOfLast(b, 3);
  }

  /** Cat's `speak` (tests/child.py). */
  lemma CatSpeak()
    ensures "speak" in MethodsOf(CatDef.body).entries
    ensures MethodsOf(CatDef.body).entries["speak"] == MethodInfo(31, SpeakSig)
  {
    var b := CatDef.body;
    assert "climb"[0] != "speak"[0];
    assert !DefinesMethod(b[2], "speak");
    MethodsOfLast(b, 1);
  }

  /** Vehicle's `__init__` and `start` (tests/base.py). */
  lemma VehicleMethods()
    ensures "__init__" in MethodsOf(VehicleDef.body).entries
    ensures MethodsOf(VehicleDef.body).entries["__init__"] == MethodInfo(28, VehicleInitSig)
    ensures "start" in MethodsOf(VehicleDef.body).entries
    ensures MethodsOf(VehicleDef.body).entries["start"] == MethodInfo(31, StartSig)
  {
    var b := VehicleDef.body;
    assert !DefinesMethod(b[2], "__init__") && !DefinesMethod(b[3], "__init__");
    MethodsOfLast(b, 1);
    assert !DefinesMethod(b[3], "start");
    MethodsOfLast(b, 2);
  }

  /** Car's and ElectricCar's `__init__` (tests/child.py). */
  lemma InitMethods()
    ensures "__init__" in MethodsOf(CarDef.body).entries
    ensures MethodsOf(CarDef.body).entries["__init__"] == MethodInfo(43, CarInitSig)
    ensures "__init__" in MethodsOf(ElectricCarDef.body).entries
    ensures MethodsOf(ElectricCarDef.body).entries["__init__"] == MethodInfo(59, ElectricCarInitSig)
  {
    assert !DefinesMethod(CarDef.body[2], "__init__") && !DefinesMethod(CarDef.body[3], "__init__");
    MethodsOfLast(CarDef.body, 1);
    assert !DefinesMethod(ElectricCarDef.body[2], "__init__") && !DefinesMethod(ElectricCarDef.body[3], "__init__");
    MethodsOfLast(ElectricCarDef.body, 1);
  }

  /** Cat is in the class table of tests/child.py, with base Animal. */
  lemma ChildTableCat()
    ensures "Cat" in TableAt(ChildPy).entries
    ensures TableAt(ChildPy).entries["Cat"] == InfoOf(CatDef)
    ensures InfoOf(CatDef).bases == ["Animal"]
  {
    var cs := [DogDef, CatDef, CarDef, ElectricCarDef];
    assert "Car"[2] != "Cat"[2];
    assert !DefinesClass(cs[2], "Cat") && !DefinesClass(cs[3], "Cat");
    TableOfLast(cs, 1);
    BaseNamesSingle("Animal");
  }

  /** Looking up Vehicle finds its methods in tests/base.py, the first file. */
  lemma VehicleFound()
    ensures BaseMethods("Vehicle", Workspace) == Tagged(MethodsOf(VehicleDef.body), BasePath, "Vehicle")
  {
    BaseTableVehicle();
    BaseMethodsFirstDefiner("Vehicle", Workspace, 0);
  }

  /** Dog.__init__ (line 11) overrides Animal.__init__ (line 9 of
      tests/base.py). */
  lemma DogInitOverridesAnimal()
    ensures ChildOverride("Dog", "__init__", 11, "Animal", Basename(BasePath), BasePath, 9, DogInitSig, AnimalInitSig)
            in Analysis(ChildPy, Workspace)
  {
    ChildTableDog();
    DogInit();
    AnimalInit();
    AnimalFound();
    LookedUp("Animal", Workspace, MethodsOf(AnimalDef.body), BasePath, "__init__", MethodInfo(9, AnimalInitSig));
    Reported(ChildPy, Workspace, "Dog", "Animal", "__init__", MethodInfo(11, DogInitSig),
             BaseMethod(9, AnimalInitSig, BasePath, "Animal"));
  }

  /** Dog.move (line 19) overrides Animal.move (line 16 of tests/base.py). */
  lemma DogMoveOverridesAnimal()
    ensures ChildOverride("Dog", "move", 19, "Animal", Basename(BasePath), BasePath, 16, MoveSig, MoveSig)
            in Analysis(ChildPy, Workspace)
  {
    ChildTableDog();
    DogMove();
    AnimalMove();
    AnimalFound();
    LookedUp("Animal", Workspace, MethodsOf(AnimalDef.body), BasePath, "move", MethodInfo(16, MoveSig));
    Reported(ChildPy, Workspace, "Dog", "Animal", "move", MethodInfo(19, MoveSig),
             BaseMethod(16, MoveSig, BasePath, "Animal"));
  }

  /** Cat.speak (line 31) overrides Animal.speak (line 12 of tests/base.py). */
  lemma CatSpeakOverridesAnimal()
    ensures ChildOverride("Cat", "speak", 31, "Animal", Basename(BasePath), BasePath, 12, SpeakSig, SpeakSig)
            in Analysis(ChildPy, Workspace)
  {
    ChildTableCat();
    CatSpeak();
    AnimalSpeak();
    AnimalFound();
    LookedUp("Animal", Workspace, MethodsOf(AnimalDef.body), BasePath, "speak", MethodInfo(12, SpeakSig));
    Reported(ChildPy, Workspace, "Cat", "Animal", "speak", MethodInfo(31, SpeakSig),
             BaseMethod(12, SpeakSig, BasePath, "Animal"));
  }

  /** Car.__init__ (line 43) overrides Vehicle.__init__ (line 28 of
      tests/base.py). */
  lemma CarInitOverridesVehicle()
    ensures ChildOverride("Car", "__init__", 43, "Vehicle", Basename(BasePath), BasePath, 28, CarInitSig, VehicleInitSig)
            in Analysis(ChildPy, Workspace)
  {
    ChildTableCar();
    InitMethods();
    VehicleMethods();
    VehicleFound();
    LookedUp("Vehicle", Workspace, MethodsOf(VehicleDef.body), BasePath, "__init__", MethodInfo(28, VehicleInitSig));
    Reported(ChildPy, Workspace, "Car", "Vehicle", "__init__", MethodInfo(43, CarInitSig),
             BaseMethod(28, VehicleInitSig, BasePath, "Vehicle"));
  }

  /** Car.start (line 47) overrides Vehicle.start (line 31 of
      tests/base.py). */
  lemma CarStartOverridesVehicle()
    ensures ChildOverride("Car", "start", 47, "Vehicle", Basename(BasePath), BasePath, 31, StartSig, StartSig)
            in Analysis(ChildPy, Workspace)
  {
    ChildTableCar();
    StartMethods();
    VehicleMethods();
    VehicleFound();
    LookedUp("Vehicle", Workspace, MethodsOf(VehicleDef.body), BasePath, "start", MethodInfo(31, StartSig));
    Reported(ChildPy, Workspace, "Car", "Vehicle", "start", MethodInfo(47, StartSig),
             BaseMethod(31, StartSig, BasePath, "Vehicle"));
  }

  /** ElectricCar.__init__ (line 59) overrides Car.__init__ (line 43 of
      tests/child.py). */
  lemma ElectricCarInitOverridesCar()
    ensures ChildOverride("ElectricCar", "__init__", 59, "Car", Basename(ChildPath), ChildPath, 43,
                          ElectricCarInitSig, CarInitSig)
            in Analysis(ChildPy, Workspace)
  {
    ChildTableElectricCar();
    InitMethods();
    CarFound();
    LookedUp("Car", Workspace, MethodsOf(CarDef.body), ChildPath, "__init__", MethodInfo(43, CarInitSig));
    Reported(ChildPy, Workspace, "ElectricCar", "Car", "__init__", MethodInfo(59, ElectricCarInitSig),
             BaseMethod(43, CarInitSig, ChildPath, "Car"));
  }

  /** No statement of Animal's body (tests/base.py) defines `climb`. */
  lemma AnimalDefinesNoClimb(i: nat)
    requires i < |AnimalDef.body|
    ensures !DefinesMethod(AnimalDef.body[i], "climb")
  {
    assert "speak"[0] != "climb"[0];
  }

  /** Looking up Animal's methods in the workspace yields no `climb`. */
  lemma AnimalLookupHasNoClimb()
    ensures "climb" !in BaseMethods("Animal", Workspace).entries
  {
    AnimalFound();
    MethodsOfDomain(AnimalDef.body, "climb");
    if "climb" in MethodsOf(AnimalDef.body).entries {
      var i :| 0 <= i < |AnimalDef.body| && DefinesMethod(AnimalDef.body[i], "climb");
      AnimalDefinesNoClimb(i);
    }
  }

  /** Cat.climb is not a method of Animal, so no record of the analysis is
      about it. */
  lemma CatClimbNotReported(r: Relation)
    requires r in Analysis(ChildPy, Workspace)
    ensures !(r.cls == "Cat" && r.methodName == "climb")
  {
    ChildAnalysisIsForward();
    ChildTableCat();
    AnimalLookupHasNoClimb();
    ForwardRecordsOnlyInherited(TableAt(ChildPy), Workspace, "Cat", "climb", r);
  }

  /** No statement of Vehicle's body (tests/base.py) defines `honk`. */
  lemma VehicleDefinesNoHonk(i: nat)
    requires i < |VehicleDef.body|
    ensures !DefinesMethod(VehicleDef.body[i], "honk")
  {
    assert "stop"[0] != "honk"[0];
  }

  /** Looking up Vehicle's methods in the workspace yields no `honk`. */
  lemma VehicleLookupHasNoHonk()
    ensures "honk" !in BaseMethods("Vehicle", Workspace).entries
  {
    VehicleFound();
    MethodsOfDomain(VehicleDef.body, "honk");
    if "honk" in MethodsOf(VehicleDef.body).entries {
      var i :| 0 <= i < |VehicleDef.body| && DefinesMethod(VehicleDef.body[i], "honk");
      VehicleDefinesNoHonk(i);
    }
  }

  /** Car.honk is not a method of Vehicle, so no record of the analysis is
      about it. */
  lemma CarHonkNotReported(r: Relation)
    requires r in Analysis(ChildPy, Workspace)
    ensures !(r.cls == "Car" && r.methodName == "honk")
  {
    ChildAnalysisIsForward();
    ChildTableCar();
    VehicleLookupHasNoHonk();
    ForwardRecordsOnlyInherited(TableAt(ChildPy), Workspace, "Car", "honk", r);
  }

  /** No statement of Car's body (tests/child.py) defines `charge`. */
  lemma CarDefinesNoCharge(i: nat)
    requires i < |CarDef.body|
    ensures !DefinesMethod(CarDef.body[i], "charge")
  {
  }

  /** Looking up Car's methods in the workspace yields no `charge`. */
  lemma CarLookupHasNoCharge()
    ensures "charge" !in BaseMethods("Car", Workspace).entries
  {
    CarFound();
    MethodsOfDomain(CarDef.body, "charge");
    if "charge" in MethodsOf(CarDef.body).entries {
      var i :| 0 <= i < |CarDef.body| && DefinesMethod(CarDef.body[i], "charge");
      CarDefinesNoCharge(i);
    }
  }

  /** ElectricCar.charge is not a method of Car, so no record of the
      analysis is about it. */
  lemma ElectricCarChargeNotReported(r: Relation)
    requires r in Analysis(ChildPy, Workspace)
    ensures !(r.cls == "ElectricCar" && r.methodName == "charge")
  {
    ChildAnalysisIsForward();
    ChildTableElectricCar();
    CarLookupHasNoCharge();
    ForwardRecordsOnlyInherited(TableAt(ChildPy), Workspace, "ElectricCar", "charge", r);
  }
}
