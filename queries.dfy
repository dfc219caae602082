/** The error type of the kernel's query group and the equality by which the incremental engine
    decides whether a recomputed result is unchanged. The engine itself and the compiler stages are
    not part of this model. */
module Queries {

  /** The type-erased error value boxed inside a KernelError. */
  datatype Cause = Cause(description: string)

  /** `KernelError(Arc<Box<dyn Error>>)`: a shared handle on a cause. */
  datatype KernelError = KernelError(cause: Cause)

  /** `Result<Arc<T>, KernelError>`; the shared handle around a successful value is left out. */
  datatype KernelResult<T> = Ok(value: T) | Err(error: KernelError)

  /** `impl PartialEq for KernelError`: the answer is always no, so that the engine recomputes
      whatever depends on a failed query. */
  predicate ErrorEq(a: KernelError, b: KernelError)
  {
    false
  }

  /** The derived `Clone`: a new handle on the same shared cause. The clone is the same value as
      the original, yet a result holding it never equals a result holding the original. */
  function Clone(e: KernelError): (c: KernelError)
    ensures c == e && c.cause == e.cause
    ensures !ResultEq<int>(Err(c), Err(e))
  {
    KernelError(e.cause)
  }

  /** `impl From<T: Error> for KernelError`: wraps any error value; a result holding the wrapped
      error is not unchanged even from itself, so it is never reused. */
  function From(cause: Cause): (e: KernelError)
    ensures e.cause == cause
    ensures !Unchanged<int>(Err(e), Err(e))
  {
    KernelError(cause)
  }

  /** The equality `Result` derives: `Ok` payloads by their own equality, errors by ErrorEq, and
      an `Ok` never equals an `Err`. */
  predicate ResultEq<T(==)>(a: KernelResult<T>, b: KernelResult<T>)
  {
    match (a, b)
    case (Ok(x), Ok(y)) => x == y
    case (Err(e), Err(f)) => ErrorEq(e, f)
    case _ => false
  }

  /** Whether a recomputed result counts as unchanged from the cached one, so that the queries
      that read it may be reused. */
  predicate Unchanged<T(==)>(cached: KernelResult<T>, recomputed: KernelResult<T>)
  {
    ResultEq(cached, recomputed)
  }

  /** No two errors are equal, not even an error and itself. */
  lemma ErrorEqNeverHolds(a: KernelError, b: KernelError)
    ensures !ErrorEq(a, b)
  {
  }

  /** Result equality: equal exactly when both are `Ok` with equal payloads. */
  lemma ResultEqExactlyOk<T>(a: KernelResult<T>, b: KernelResult<T>)
    ensures ResultEq(a, b) <==> a.Ok? && b.Ok? && a.value == b.value
    ensures a.Err? && b.Err? ==> !ResultEq(a, b)
    ensures a.Ok? != b.Ok? ==> !ResultEq(a, b)
  {
  }

  /** Result equality is reflexive on `Ok` values only, so it is not Dafny's `==`. */
  lemma ResultEqNotReflexive<T>(r: KernelResult<T>)
    ensures ResultEq(r, r) <==> r.Ok?
  {
  }

  /** A result holding an error is never unchanged, on either side, so a cached error is never
      reused and the query is computed again. */
  lemma ErrorsNeverUnchanged<T>(cached: KernelResult<T>, recomputed: KernelResult<T>)
    ensures cached.Err? ==> !Unchanged(cached, recomputed)
    ensures recomputed.Err? ==> !Unchanged(cached, recomputed)
    ensures Unchanged(cached, recomputed) ==> cached.Ok? && cached == recomputed
  {
  }

  /** As errors, a clone compares unequal to its original, and a wrapped cause to itself. */
  lemma CloneSharesButDiffers(e: KernelError, cause: Cause)
    ensures !ErrorEq(Clone(e), e)
    ensures !ErrorEq(From(cause), From(cause))
  {
  }

  // ---------------------------------------------------------------------------------------------
  // The signatures of the query group

  datatype Query = Content | Children | Attributes | BuildAst | Ast | Hir | Thir | Amir | Mir | ExecutionContext

  /** What a query is keyed by: a node or a card. */
  datatype Key = NodeKey | CardKey

  /** Whether the query is an input (set from outside, not computed), its key, and whether it
      answers with a KernelResult. */
  datatype Signature = Signature(input: bool, key: Key, fallible: bool)

  /** One line per query of the group. */
  function SignatureOf(q: Query): Signature
  {
    match q
    case Content => Signature(true, NodeKey, false)
    case Children => Signature(true, NodeKey, false)
    case Attributes => Signature(true, NodeKey, false)
    case BuildAst => Signature(false, NodeKey, true)
    case Ast => Signature(false, CardKey, true)
    case Hir => Signature(false, CardKey, true)
    case Thir => Signature(false, CardKey, true)
    case Amir => Signature(false, CardKey, true)
    case Mir => Signature(false, CardKey, true)
    case ExecutionContext => Signature(false, CardKey, true)
  }

  /** Only content, children and attributes are inputs; they are keyed by node and cannot fail.
      Everything else is derived and answers with a KernelResult; only build_ast among them is
      keyed by node. */
  lemma InputsAndDerived(q: Query)
    ensures SignatureOf(q).input <==> q in {Content, Children, Attributes}
    ensures SignatureOf(q).input ==> SignatureOf(q).key == NodeKey && !SignatureOf(q).fallible
    ensures SignatureOf(q).fallible <==> !SignatureOf(q).input
    ensures SignatureOf(q).key == NodeKey <==> q in {Content, Children, Attributes, BuildAst}
  {
  }
}
