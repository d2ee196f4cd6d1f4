/**
 The element-family tag a finite-element kernel is built with, the kernel
 itself, and the result type its operations return.

 The kernel stores its tag as a string and compares it against two names on
 every call; any other string is accepted at construction and only rejected
 when an operation is invoked.
 */
module ElementTypes {

  /** The element family: a 1D elasticity bar, an Euler-Bernoulli beam, or any
      other tag, kept verbatim. */
  datatype ProblemType = Elasticity | EBBeam | Other(tag: string)

  const ElasticityTag: string := "Elasticity"
  const EBBeamTag: string := "EB_beam"

  /** True iff the string names one of the two supported element families. */
  predicate Recognised(tag: string) {
    tag == ElasticityTag || tag == EBBeamTag
  }

  /** An `Other` tag never carries one of the recognised names: every value
      obtained from a string by `Parse` has this shape. */
  predicate Valid(p: ProblemType) {
    p.Other? ==> !Recognised(p.tag)
  }

  /** Classifies a tag string the way each operation's comparison chain does. */
  function Parse(tag: string): (p: ProblemType)
    ensures Valid(p)
    ensures p.Elasticity? <==> tag == ElasticityTag
    ensures p.EBBeam? <==> tag == EBBeamTag
    ensures p.Other? <==> !Recognised(tag)
  {
    if tag == ElasticityTag then Elasticity
    else if tag == EBBeamTag then EBBeam
    else Other(tag)
  }

  /** The string a problem type stands for. */
  function TagOf(p: ProblemType): string {
    match p
    case Elasticity => ElasticityTag
    case EBBeam => EBBeamTag
    case Other(t) => t
  }

  /** Classifying a tag loses nothing: the original string is recovered. */
  lemma ParseThenTagOf(tag: string)
    ensures TagOf(Parse(tag)) == tag
  {
  }

  /** Every well-formed problem type is the classification of its own tag. */
  lemma TagOfThenParse(p: ProblemType)
    requires Valid(p)
    ensures Parse(TagOf(p)) == p
  {
  }

  /** The problem types a kernel can hold: an `Other` value never carries a
      recognised name, so `Other("Elasticity")` is not a kernel's tag. */
  type Tag = p: ProblemType | Valid(p) witness Elasticity

  /** A kernel holds exactly one immutable attribute, its problem type. */
  datatype FiniteElement = FiniteElement(problemType: Tag)

  /** Builds a kernel from a tag string; the tag defaults to "Elasticity" and is
      not validated here. */
  function NewFiniteElement(tag: string := ElasticityTag): (elem: FiniteElement)
    ensures TagOf(elem.problemType) == tag
    ensures elem.problemType.Other? <==> !Recognised(tag)
  {
    FiniteElement(Parse(tag))
  }

  /** Outcome of a kernel operation: a value, or the single error kind raised
      when the operation does not support the kernel's element family. */
  datatype Result<+T> = Ok(value: T) | InvalidElementType
}
