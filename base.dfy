/** The base class of the URI writers, `WriterMethod`: writers print as
    their name, and their comparison operators order them by name. */
module Base {
  import opened PyStr

  /** An object as the comparison operators see it: the chain of classes
      from the root of the hierarchy down to its own class (single
      inheritance), and the string its `name()` returns. */
  datatype Obj = Obj(classes: seq<string>, name: string)

  /** What a rich comparison method returns: a boolean, or the
      `NotImplemented` marker that lets Python try the reflected operator. */
  datatype Cmp = Bool(b: bool) | NotImplemented

  /** What a call returns when it can also raise. */
  datatype Outcome = Returns(value: Cmp) | Raises(typeName: string)

  /** `isinstance(o, C)` where `classes` is the chain of `C`: the object's
      class is `C` or a subclass of it. */
  predicate IsInstance(o: Obj, classes: seq<string>)
  {
    classes <= o.classes
  }

  /** `isinstance(other, type(self))`, the guard of four of the operators. */
  predicate SameType(self: Obj, other: Obj)
  {
    IsInstance(other, self.classes)
  }

  /** `__str__`. */
  function Str(self: Obj): string
  {
    self.name
  }

  /** `__repr__`. */
  function Repr(self: Obj): string
  {
    self.name
  }

  /** `__eq__`. */
  function Eq(self: Obj, other: Obj): Cmp
  {
    if !SameType(self, other) then NotImplemented
    else Bool(!Less(self.name, other.name) && !Less(other.name, self.name))
  }

  /** `__ne__` as written: its body calls a module-level `__eq__` that does
      not exist, so every call raises `NameError`. */
  function NeAsWritten(self: Obj, other: Obj): Outcome
  {
    Raises("NameError")
  }

  /** `__lt__`: no type guard. */
  function Lt(self: Obj, other: Obj): bool
  {
    Less(self.name, other.name)
  }

  /** `__gt__`. */
  function Gt(self: Obj, other: Obj): Cmp
  {
    if !SameType(self, other) then NotImplemented
    else Bool(Less(other.name, self.name))
  }

  /** `__le__`. */
  function Le(self: Obj, other: Obj): Cmp
  {
    if !SameType(self, other) then NotImplemented
    else Bool(!Less(other.name, self.name))
  }

  /** `__ge__`. */
  function Ge(self: Obj, other: Obj): Cmp
  {
    if !SameType(self, other) then NotImplemented
    else Bool(!Less(self.name, other.name))
  }

  /** A writer prints, and is represented, as its name. */
  lemma StrReprAreName(self: Obj)
    ensures Str(self) == self.name && Repr(self) == self.name
  {
  }

  /** `==`, `>`, `<=` and `>=` answer `NotImplemented` exactly when the other
      operand is not an instance of this one's class; `<` always answers a
      boolean, the comparison of the names. */
  lemma TypeGuards(self: Obj, other: Obj)
    ensures Eq(self, other).NotImplemented? <==> !SameType(self, other)
    ensures Gt(self, other).NotImplemented? <==> !SameType(self, other)
    ensures Le(self, other).NotImplemented? <==> !SameType(self, other)
    ensures Ge(self, other).NotImplemented? <==> !SameType(self, other)
    ensures Lt(self, other) <==> Less(self.name, other.name)
  {
  }

  /** For operands of the same type, `==` holds exactly when the names are
      equal. */
  lemma EqIsNameEquality(self: Obj, other: Obj)
    requires SameType(self, other)
    ensures Eq(self, other) == Bool(self.name == other.name)
  {
    LessTotal(self.name, other.name);
    LessIrreflexive(self.name);
  }

  /** `a > b` is `b < a`. */
  lemma GtIsFlippedLt(self: Obj, other: Obj)
    requires SameType(self, other)
    ensures Gt(self, other) == Bool(Lt(other, self))
  {
  }

  /** `a <= b` is the negation of `a > b`, `a >= b` the negation of `a < b`,
      and each is the strict comparison or equality. */
  lemma LeGeAreNegations(self: Obj, other: Obj)
    requires SameType(self, other)
    ensures Le(self, other) == Bool(!Gt(self, other).b)
    ensures Ge(self, other) == Bool(!Lt(self, other))
    ensures Le(self, other).b <==> Lt(self, other) || Eq(self, other).b
    ensures Ge(self, other).b <==> Gt(self, other).b || Eq(self, other).b
  {
    EqIsNameEquality(self, other);
    LessTotal(self.name, other.name);
    LessAsymmetric(self.name, other.name);
    LessAsymmetric(other.name, self.name);
    LessIrreflexive(self.name);
  }

  /** For operands of the same type exactly one of `a < b`, `a == b` and
      `a > b` holds. */
  lemma Trichotomy(self: Obj, other: Obj)
    requires SameType(self, other)
    ensures Lt(self, other) || Eq(self, other).b || Gt(self, other).b
    ensures !(Lt(self, other) && Eq(self, other).b)
    ensures !(Lt(self, other) && Gt(self, other).b)
    ensures !(Eq(self, other).b && Gt(self, other).b)
  {
    EqIsNameEquality(self, other);
    LessTotal(self.name, other.name);
    LessAsymmetric(self.name, other.name);
    LessIrreflexive(self.name);
  }

  /** `<` is a strict order on writers: irreflexive and transitive. */
  lemma LtStrictOrder(a: Obj, b: Obj, c: Obj)
    ensures !Lt(a, a)
    ensures Lt(a, b) && Lt(b, c) ==> Lt(a, c)
  {
    LessIrreflexive(a.name);
    if Lt(a, b) && Lt(b, c) {
      LessTransitive(a.name, b.name, c.name);
    }
  }

  /** `__ne__` never returns a value: every call raises `NameError`,
      whatever the operands. */
  lemma NeNeverReturns(self: Obj, other: Obj)
    ensures NeAsWritten(self, other) == Raises("NameError")
    ensures !NeAsWritten(self, other).Returns?
  {
  }
}
