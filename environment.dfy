/** The fixed catalog of built-in types, variables and function signatures.
    Environment.java is not part of this model; this is the minimal
    counterpart the analyzer and the generator need: each type has a name
    in the source language and the name of its Java counterpart. */
module Environment {
  import opened Outcomes

  datatype Type =
    | Any | Nil | Comparable | Boolean | Integer | Decimal | Character | String | IntegerIterable
  {
    /** The type's name in the source language (what `LET x: Name` spells). */
    function Name(): string {
      match this
      case Any => "Any"
      case Nil => "Nil"
      case Comparable => "Comparable"
      case Boolean => "Boolean"
      case Integer => "Integer"
      case Decimal => "Decimal"
      case Character => "Character"
      case String => "String"
      case IntegerIterable => "IntegerIterable"
    }

    /** The name of the Java type the generator writes for it. */
    function JvmName(): string {
      match this
      case Any => "Object"
      case Nil => "Void"
      case Comparable => "Comparable"
      case Boolean => "boolean"
      case Integer => "int"
      case Decimal => "double"
      case Character => "char"
      case String => "String"
      case IntegerIterable => "Iterable<Integer>"
    }
  }

  const Catalog: map<string, Type> := map["Any" := Any, "Nil" := Nil, "Comparable" := Comparable, "Boolean" := Boolean, "Integer" := Integer, "Decimal" := Decimal, "Character" := Character, "String" := String, "IntegerIterable" := IntegerIterable]

  /** Environment.getType: the catalog entry with the given name, if any. */
  function GetType(name: string): (r: Option<Type>)
    ensures r.Some? ==> r.value.Name() == name
  {
    if name in Catalog then Some(Catalog[name]) else None
  }

  /** Looking a type up by its own name finds that type: names are distinct. */
  lemma GetTypeOfName(t: Type)
    ensures GetType(t.Name()) == Some(t)
  {
    match t
    case Any =>
    case Nil =>
    case Comparable =>
    case Boolean =>
    case Integer =>
    case Decimal =>
    case Character =>
    case String =>
    case IntegerIterable =>
  }

  /** A variable the analyzer binds: its name, the name the generator writes
      for it, and its type, a reference that is null (None) when the
      declaration's value was never given a type. */
  datatype Variable = Variable(name: string, jvmName: string, ty: Option<Type>)

  /** A function signature the analyzer binds. */
  datatype FunctionSig = FunctionSig(name: string, jvmName: string, parameterTypes: seq<Type>, returnType: Type)
}
