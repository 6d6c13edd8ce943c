/** Vocabulary shared by every module: optional values, calls that may raise, and text tests. */
module Common {

  datatype Option<+T> = None | Some(value: T)

  /** The exception classes that some handler of the program tells apart. */
  datatype ExceptionKind = NotConnected | Mt5Error | TimeoutOrOs | ValueError | OtherError

  datatype Exception = Exception(kind: ExceptionKind, message: string)

  /** What a call comes back with: a value, or an exception on its way to the nearest handler. */
  datatype Answer<+T> = Returned(value: T) | Raised(exc: Exception) {
    predicate IsFailure() {
      Raised?
    }

    function PropagateFailure<U>(): Answer<U>
      requires Raised?
    {
      Raised(exc)
    }

    function Extract(): T
      requires Returned?
    {
      value
    }
  }

  /** An optional fault of a collaborator, as a call that raises it. */
  function Call(fault: Option<Exception>): Answer<()> {
    match fault
    case None => Returned(())
    case Some(exc) => Raised(exc)
  }

  /** A validity check that raises; its messages are never blank, and one text stands for all of them. */
  function Check(condition: bool): Answer<()> {
    if condition then Returned(()) else Raised(Exception(ValueError, "check"))
  }

  /** Python's whitespace: what `str.split` and `str.strip` treat as a separator. */
  predicate IsSpace(c: char) {
    || '\U{0009}' <= c <= '\U{000D}'
    || '\U{001C}' <= c <= '\U{0020}'
    || c == '\U{0085}' || c == '\U{00A0}' || c == '\U{1680}'
    || '\U{2000}' <= c <= '\U{200A}'
    || c == '\U{2028}' || c == '\U{2029}' || c == '\U{202F}' || c == '\U{205F}' || c == '\U{3000}'
  }

  /** The same characters by their code points. */
  lemma SpaceCodes(c: char)
    ensures var code := c as int;
      IsSpace(c) <==>
        || code in {9, 10, 11, 12, 13, 28, 29, 30, 31, 32, 133, 160, 5760}
        || code in {8192, 8193, 8194, 8195, 8196, 8197, 8198, 8199, 8200, 8201, 8202}
        || code in {8232, 8233, 8239, 8287, 12288}
  {
  }

  /** `not text.strip()` */
  predicate Blank(s: string) {
    s == "" || (IsSpace(s[0]) && Blank(s[1..]))
  }

  lemma {:induction false} BlankIff(s: string)
    ensures Blank(s) <==> forall i | 0 <= i < |s| :: IsSpace(s[i])
  {
    if s != "" {
      BlankIff(s[1..]);
      assert forall i | 0 < i < |s| :: s[i] == s[1..][i - 1];
    }
  }

  function Last<T>(s: seq<T>, n: nat): (r: seq<T>)
    ensures |r| == if n < |s| then n else |s|
  {
    if n < |s| then s[|s| - n..] else s
  }

  predicate Distinct<T(==)>(s: seq<T>) {
    forall i, j | 0 <= i < j < |s| :: s[i] != s[j]
  }

  function Without<T>(s: seq<T>, i: nat): (r: seq<T>)
    requires i < |s|
    ensures |r| == |s| - 1
  {
    s[..i] + s[i + 1..]
  }

  lemma WithoutTakesOne<T>(s: seq<T>, i: nat)
    requires i < |s|
    ensures multiset(Without(s, i)) == multiset(s) - multiset{s[i]}
  {
    assert s == s[..i] + [s[i]] + s[i + 1..];
  }

  /** Taking the head off the smaller bag, and the same element off the larger one. */
  lemma SubBagStep<T>(fewer: seq<T>, all: seq<T>, i: nat)
    requires fewer != [] && i < |all| && all[i] == fewer[0]
    requires multiset(fewer) <= multiset(all)
    ensures multiset(fewer[1..]) <= multiset(Without(all, i))
    ensures multiset(fewer) == multiset(all) ==> multiset(fewer[1..]) == multiset(Without(all, i))
  {
    WithoutTakesOne(all, i);
    WithoutTakesOne(fewer, 0);
    assert Without(fewer, 0) == fewer[1..];
  }
}
