/** The class hierarchy of the polymorphism example: a base class `Mamifero`
    and two classes derived from it, `Perro` and `Persona`, each overriding
    the virtual `comer()`.

    A derived object holds its `Mamifero` base subobject in the field `base`,
    built from the constructor's `edad` before the derived fields are set.
    An override reaches the base version by calling `base.Comer`, which is
    the qualified call `Mamifero::comer()`: delegation is explicit, happens
    where the override places it, and is not chained automatically.

    Every `Mamifero` also records, in `dyn`, the class of the complete
    object it belongs to: `MamiferoType` for a `Mamifero` created on its
    own, `PerroType` or `PersonaType` for the base subobject of a `Perro` or
    a `Persona`. That is what a virtual call consults.

    The fields are private in the source and only the constructors write
    them, so they are `const` here: no operation can change them after
    construction. */
module Polymorphism {
  import opened Ostream
  import opened Eating

  class Mamifero {
    /** The age, fixed at construction. */
    const edad: int
    /** The class of the complete object this is part of. */
    const dyn: DynamicType

    /** `Mamifero(edad)` creating a `Mamifero` on its own. */
    constructor (edad: int)
      ensures this.edad == edad && dyn == MamiferoType
    {
      this.edad := edad;
      dyn := MamiferoType;
    }

    /** `Mamifero(edad)` run from the initialiser list of a derived class
        `dyn`, building that object's base subobject. */
    constructor Subobject(edad: int, dyn: DynamicType)
      requires dyn != MamiferoType
      ensures this.edad == edad && this.dyn == dyn
    {
      this.edad := edad;
      this.dyn := dyn;
    }

    /** `Mamifero::comer`: writes the base line and nothing else. */
    method Comer(out: Stream)
      modifies out
      ensures out.lines == old(out.lines) + EatLines(MamiferoType)
    {
      out.WriteLine(BaseLine);
    }
  }

  class Perro {
    /** The `Mamifero` base subobject. */
    const base: Mamifero
    const nombre: string

    constructor (nombre: string, edad: int)
      ensures fresh(base) && base.edad == edad && base.dyn == PerroType
      ensures this.nombre == nombre
    {
      base := new Mamifero.Subobject(edad, PerroType);
      this.nombre := nombre;
    }

    /** `Perro::comer`: its own line first, then the base version. */
    method Comer(out: Stream)
      modifies out
      ensures out.lines == old(out.lines) + EatLines(PerroType)
    {
      out.WriteLine(PerroLine);
      base.Comer(out);
    }
  }

  class Persona {
    /** The `Mamifero` base subobject. */
    const base: Mamifero
    const oficio: string

    constructor (oficio: string, edad: int)
      ensures fresh(base) && base.edad == edad && base.dyn == PersonaType
      ensures this.oficio == oficio
    {
      base := new Mamifero.Subobject(edad, PersonaType);
      this.oficio := oficio;
    }

    /** `Persona::comer`: the base version first, then its own line. */
    method Comer(out: Stream)
      modifies out
      ensures out.lines == old(out.lines) + EatLines(PersonaType)
    {
      base.Comer(out);
      out.WriteLine(PersonaLine);
    }
  }

  /** A `Mamifero&` or `Mamifero*`: a reference to the `Mamifero` part of
      an object, together with the complete object it designates. */
  datatype MamiferoRef = AsMamifero(m: Mamifero) | AsPerro(p: Perro) | AsPersona(q: Persona)
  {
    /** The `Mamifero` the reference points at. */
    function Object(): Mamifero
    {
      match this
      case AsMamifero(m) => m
      case AsPerro(p) => p.base
      case AsPersona(q) => q.base
    }

    /** The reference designates a complete object of the class that its
        target records: a `Mamifero` on its own, or the base subobject of a
        `Perro` or a `Persona`. A plain `Mamifero` reference to a derived
        object's base is not one; in C++ it would be a sliced copy. */
    predicate Valid()
    {
      match this
      case AsMamifero(m) => m.dyn == MamiferoType
      case AsPerro(p) => p.base.dyn == PerroType
      case AsPersona(q) => q.base.dyn == PersonaType
    }
  }

  /** A virtual call `r.comer()`: runs the override of the class the object
      was created as, which the object itself records. */
  method ComerVirtual(r: MamiferoRef, out: Stream)
    requires r.Valid()
    modifies out
    ensures out.lines == old(out.lines) + EatLines(r.Object().dyn)
  {
    match r
    case AsMamifero(m) => m.Comer(out);
    case AsPerro(p) => p.Comer(out);
    case AsPersona(q) => q.Comer(out);
  }

  /** A `Mamifero` reference to the base subobject of a `Perro` or a
      `Persona` must name the complete object, so a virtual call through it
      runs that class's override and not the base version alone. */
  lemma DerivedBaseNeedsDerivedRef(p: Perro, q: Persona)
    requires p.base.dyn == PerroType && q.base.dyn == PersonaType
    ensures !AsMamifero(p.base).Valid() && !AsMamifero(q.base).Valid()
    ensures AsPerro(p).Valid() && |EatLines(AsPerro(p).Object().dyn)| == 2
    ensures AsPersona(q).Valid() && |EatLines(AsPersona(q).Object().dyn)| == 2
  {
  }

  /** Two virtual calls on the same object write its lines twice: `comer()`
      changes no field, so the second call behaves as the first. */
  method ComerTwice(r: MamiferoRef, out: Stream)
    requires r.Valid()
    modifies out
    ensures out.lines == old(out.lines) + EatLines(r.Object().dyn) + EatLines(r.Object().dyn)
  {
    ComerVirtual(r, out);
    ComerVirtual(r, out);
  }

  /** `main`: creates the dog Mizu, aged 5, and the software engineer aged
      23, has the dog eat, ends an empty line, and has the person eat. The
      console starts empty, so its lines are the program's whole output. */
  method RunMain() returns (out: Stream, mizu: Perro, jose: Persona)
    ensures mizu.nombre == "Mizu" && mizu.base.edad == 5
    ensures jose.oficio == "Software Engineer" && jose.base.edad == 23
    ensures fresh(out) && out.lines == Output(MainProgram)
    ensures out.lines == [PerroLine, BaseLine, "", BaseLine, PersonaLine]
  {
    out := new Stream();
    mizu := new Perro("Mizu", 5);
    jose := new Persona("Software Engineer", 23);
    mizu.Comer(out);
    out.WriteLine("");
    jose.Comer(out);
    MainOutput();
  }
}
