# Polymorphic `comer` in Dafny

This project models the polymorphism example of the `cpp-examples`
repository. `Mamifero` is a base class. It stores an age (`edad`) and
declares a virtual `comer()` ("eat") that prints one fixed line. Two classes
derive from it: `Perro` (a dog, with a `nombre`) and `Persona` (a person,
with an `oficio`). Each overrides `comer()` and calls the base version
explicitly by its qualified name, `Mamifero::comer()`. The dog prints its own
line first and the base line after it. The person prints the base line first
and its own line after it. `main` creates the dog Mizu, aged 5, and a
software engineer aged 23, and has each of them eat, with an empty line in
between.

The model has three modules:

- `Ostream` (`ostream.dfy`) models the console as a `Stream` object. It
  holds the lines written so far, and `WriteLine` models
  `cout << s << endl`.
- `Eating` (`eating.dfy`) is the specification, written as values.
  `EatLines(t)` gives the lines that one `comer()` call appends when the
  receiver was created as class `t`. `Output(p)` gives the lines that a
  straight-line program of `comer()` calls and bare `endl`s appends. Beside
  them sit the lemmas about delegation, repetition and the output of `main`.
- `Polymorphism` (`polymorphism.dfy`) holds the classes. Dafny has no class
  inheritance, so each derived object keeps its base subobject in a field
  named `base`. An override calls `base.Comer(out)` at the point where the
  source calls `Mamifero::comer()`. Every `Mamifero` records in its `dyn`
  field the class of the complete object it belongs to: its own class when
  created on its own, `Perro` or `Persona` when it is the base subobject of
  one. A virtual call is modelled by `ComerVirtual`. It takes a
  `MamiferoRef`, which is a reference to a `Mamifero` that names the complete
  object. It runs the override of the class that the object records. Each
  `Comer` is proved against `EatLines`, and `main` is proved against
  `Output`.

The fields are private in the source and only the constructors assign them.
Here they are `const` fields, assigned in the constructors. So no method can
change `edad`, `nombre` or `oficio` after construction, and in particular
`comer()` cannot.

## Model

| member | source | states |
|---|---|---|
| `Ostream.Stream.constructor` | polymorphism/index.cpp:60-61 | The console starts with no lines written. |
| `Ostream.Stream.WriteLine` | polymorphism/index.cpp:22 | `cout << s << endl` appends exactly the line `s` and changes nothing else. |
| `Eating.EatLines` | polymorphism/index.cpp:21-57 | One `comer()` call runs the base version exactly once, so the base line occurs exactly once in its output. The base version writes 1 line. Each override writes 2 lines. For `Perro` its own line "Wof wof..." comes first and the base line last. For `Persona` the base line comes first and its own line "Hey, soy humano y estoy comiendo..." last. |
| `Eating.Output` | polymorphism/index.cpp:66-69 | A sequence of `comer()` calls and bare `endl`s writes at least one line per call and at most two lines per statement. |
| `Eating.OutputBaseLines` | polymorphism/index.cpp:39-69 | Every version of `comer()` delegates to the base exactly once. So a program's output holds the base line exactly once per `comer()` call and nowhere else. |
| `Eating.OutputAppend` | polymorphism/index.cpp:66-69 | Running one program after another writes the first program's lines followed by the second's. |
| `Eating.ComerAgain` | polymorphism/index.cpp:39-57 | The output of a program followed by one more `comer()` call is the program's output followed by exactly the lines that call writes on its own. |
| `Eating.SharedBaseLine` | polymorphism/index.cpp:22-55 | The base line written through `Perro` and through `Persona` is the very line that `Mamifero::comer` writes. |
| `Eating.MainOutput` | polymorphism/index.cpp:63-69 | `main`'s statements write "Wof wof...", the base line, an empty line, the base line again, and "Hey, soy humano y estoy comiendo...", in that order. |
| `Polymorphism.Mamifero.constructor` | polymorphism/index.cpp:11-13 | Stores its `edad` argument and records that the object is a `Mamifero` on its own. |
| `Polymorphism.Mamifero.Subobject` | polymorphism/index.cpp:11-13 | The same constructor run from a derived class's initialiser list: stores `edad` and records the derived class. |
| `Polymorphism.Mamifero.Comer` | polymorphism/index.cpp:21-23 | Appends exactly `EatLines(MamiferoType)`, which is the base line alone. It changes no field. |
| `Polymorphism.Perro.constructor` | polymorphism/index.cpp:36-38 | Builds a fresh base subobject with the given `edad`, which records that it belongs to a `Perro`, then stores `nombre`. |
| `Polymorphism.Perro.Comer` | polymorphism/index.cpp:39-43 | Appends exactly `EatLines(PerroType)`: its own line, then the base version's line. It changes no field. |
| `Polymorphism.Persona.constructor` | polymorphism/index.cpp:50-52 | Builds a fresh base subobject with the given `edad`, which records that it belongs to a `Persona`, then stores `oficio`. |
| `Polymorphism.Persona.Comer` | polymorphism/index.cpp:53-57 | Appends exactly `EatLines(PersonaType)`: the base version's line, then its own line. It changes no field. |
| `Polymorphism.ComerVirtual` | polymorphism/index.cpp:21 | A virtual `comer()` call through a `Mamifero` reference runs the override of the class the object was created as, which the object records. It appends `EatLines` of that class. |
| `Polymorphism.DerivedBaseNeedsDerivedRef` | polymorphism/index.cpp:21 | A reference to the base part of a `Perro` or a `Persona` cannot pose as a reference to a plain `Mamifero`. A virtual call through a reference to either of them writes two lines, not the base line alone. |
| `Polymorphism.ComerTwice` | polymorphism/index.cpp:21-57 | Two virtual calls on the same object append that object's lines twice. `comer()` changes no field, so the second call behaves like the first. |
| `Polymorphism.RunMain` | polymorphism/index.cpp:60-72 | `main` creates a `Perro` named "Mizu" aged 5 and a `Persona` whose `oficio` is "Software Engineer", aged 23. Its whole console output is `Output(MainProgram)`, which is the five lines listed for `MainOutput`. |

## Left out

- `basic-concepts/index.cpp` is not part of this model. It is one `main` of language demonstrations: console input, floating-point and `<cmath>` output, `sizeof` values that depend on the platform, and constant integer expressions with no inputs.
- Stream formatting and buffering are left out. All output in the modelled file is whole lines ended by `endl`, so the console is the sequence of those lines. Text written without a following `endl` is not modelled.
- `edad` is a C++ `int`. Here it is an unbounded `int`. The source only stores the value and never does arithmetic on it, so no overflow can arise.
- Object destruction and the lifetime of `std::string` are left out. The source defines no destructor.
- `main` calls `comer()` on the objects directly, not through a base-class pointer. Virtual dispatch through a base-class reference is therefore modelled separately, by `ComerVirtual`. `RunMain` calls each class's `Comer` directly, as `main` does.
