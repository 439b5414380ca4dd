/** What `comer()` ("eat") writes to the console, as values: the lines one
    call appends for each dynamic type of the receiver, and the lines a
    straight-line program of calls and bare `endl`s appends. The classes in
    module Polymorphism are proved against these functions. */
module Eating {

  /** The one line `Mamifero::comer` writes. */
  const BaseLine: string := "¡El mamífero está comiendo!"
  /** The line `Perro::comer` writes itself. */
  const PerroLine: string := "Wof wof..."
  /** The line `Persona::comer` writes itself. */
  const PersonaLine: string := "Hey, soy humano y estoy comiendo..."

  /** The class an object was created as, which decides the `comer` that a
      virtual call runs. */
  datatype DynamicType = MamiferoType | PerroType | PersonaType

  /** How many of the lines in `s` are exactly `x`. */
  function Occurrences(s: seq<string>, x: string): (n: nat)
    ensures n <= |s|
    ensures n == 0 <==> x !in s
  {
    if s == [] then 0 else (if s[0] == x then 1 else 0) + Occurrences(s[1..], x)
  }

  lemma {:induction false} OccurrencesAppend(a: seq<string>, b: seq<string>, x: string)
    ensures Occurrences(a + b, x) == Occurrences(a, x) + Occurrences(b, x)
  {
    if a == [] {
      assert a + b == b;
    } else {
      assert (a + b)[1..] == a[1..] + b;
      OccurrencesAppend(a[1..], b, x);
    }
  }

  /** The lines one call of `comer()` appends when the receiver was created
      as `t`. Each version runs the base `Mamifero::comer` exactly once: the
      base version is that line alone, `Perro` writes its own line before it
      and `Persona` after it. */
  function EatLines(t: DynamicType): (r: seq<string>)
    ensures |r| == if t == MamiferoType then 1 else 2
    ensures Occurrences(r, BaseLine) == 1
    ensures t == PerroType ==> r[0] == PerroLine && r[|r| - 1] == BaseLine
    ensures t == PersonaType ==> r[0] == BaseLine && r[|r| - 1] == PersonaLine
  {
    assert PerroLine[0] != BaseLine[0] && PersonaLine[0] != BaseLine[0];
    match t
    case MamiferoType => [BaseLine]
    case PerroType => [PerroLine, BaseLine]
    case PersonaType => [BaseLine, PersonaLine]
  }

  /** A statement of a straight-line program such as `main`: a call of
      `comer()` on an object created as `t`, or a bare `cout << endl`. */
  datatype Stmt = Comer(t: DynamicType) | Endl

  /** The number of `comer()` calls in `p`. */
  function Calls(p: seq<Stmt>): (n: nat)
    ensures n <= |p|
  {
    if p == [] then 0 else (if p[0].Comer? then 1 else 0) + Calls(p[1..])
  }

  /** The lines one statement appends; a bare `endl` ends an empty line. */
  function StmtLines(s: Stmt): seq<string>
  {
    match s
    case Comer(t) => EatLines(t)
    case Endl => [""]
  }

  /** The lines the program `p` appends to the console, statement by
      statement. */
  function Output(p: seq<Stmt>): (r: seq<string>)
    ensures Calls(p) <= |r| <= 2 * |p|
  {
    if p == [] then [] else StmtLines(p[0]) + Output(p[1..])
  }

  /** Because every version of `comer()` delegates to the base exactly once,
      the base line appears in a program's output once per call and never
      otherwise. */
  lemma {:induction false} OutputBaseLines(p: seq<Stmt>)
    ensures Occurrences(Output(p), BaseLine) == Calls(p)
  {
    if p != [] {
      OutputBaseLines(p[1..]);
      OccurrencesAppend(StmtLines(p[0]), Output(p[1..]), BaseLine);
    }
  }

  /** Running `p` and then `q` writes what `p` writes followed by what `q`
      writes. */
  lemma {:induction false} OutputAppend(p: seq<Stmt>, q: seq<Stmt>)
    ensures Output(p + q) == Output(p) + Output(q)
  {
    if p == [] {
      assert p + q == q;
    } else {
      assert (p + q)[1..] == p[1..] + q;
      OutputAppend(p[1..], q);
    }
  }

  /** The output of a program followed by one more call is the program's
      output followed by exactly the lines that call writes on its own. */
  lemma ComerAgain(p: seq<Stmt>, t: DynamicType)
    ensures Output(p + [Comer(t)]) == Output(p) + EatLines(t)
  {
    OutputAppend(p, [Comer(t)]);
  }

  /** The base line that `Perro` and `Persona` write through delegation is
      the very line the base version writes. */
  lemma SharedBaseLine()
    ensures EatLines(PerroType)[1] == EatLines(PersonaType)[0] == EatLines(MamiferoType)[0]
  {
  }

  /** `main`: `mizu.comer(); cout << endl; jose.comer();` with `mizu` a
      `Perro` and `jose` a `Persona`. */
  const MainProgram: seq<Stmt> := [Comer(PerroType), Endl, Comer(PersonaType)]

  /** `main` writes the dog's two lines, an empty line, and the
      person's two lines. */
  lemma MainOutput()
    ensures Output(MainProgram) == [PerroLine, BaseLine, "", BaseLine, PersonaLine]
  {
  }
}
