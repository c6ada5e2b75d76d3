/** Types shared by the models of the policy server's components. */
module Common {
  datatype Option<+T> = None | Some(value: T)

  /** A nullable database value: the null mark and the content are separate, so a null value
      still carries whatever content it was last given. */
  datatype Field = Field(isNull: bool, v: string)

  const NULL_FIELD := Field(true, "")

  /** Assigning plain text to a nullable value clears its null mark. */
  function NonNull(v: string): Field {
    Field(false, v)
  }

  lemma Associates<T>(a: seq<T>, b: seq<T>, c: seq<T>)
    ensures a + (b + c) == (a + b) + c
  {
  }

  /** A list with every occurrence of one element erased. */
  function Without(list: seq<string>, x: string): seq<string> {
    if list == [] then []
    else (if list[0] == x then [] else [list[0]]) + Without(list[1..], x)
  }

  lemma {:induction false} WithoutMembers(list: seq<string>, x: string)
    ensures forall y :: y in Without(list, x) <==> y in list && y != x
  {
    if list == [] {
    } else {
      WithoutMembers(list[1..], x);
      assert list == [list[0]] + list[1..];
    }
  }

  lemma {:induction false} WithoutAbsent(list: seq<string>, x: string)
    requires x !in list
    ensures Without(list, x) == list
  {
    if list == [] {
    } else {
      WithoutAbsent(list[1..], x);
    }
  }

  lemma {:induction false} WithoutConcat(a: seq<string>, b: seq<string>, x: string)
    ensures Without(a + b, x) == Without(a, x) + Without(b, x)
  {
    if a == [] {
      assert a + b == b;
    } else {
      assert (a + b)[1..] == a[1..] + b;
      WithoutConcat(a[1..], b, x);
      Associates(if a[0] == x then [] else [a[0]], Without(a[1..], x), Without(b, x));
    }
  }

  /** The protocol variants a peer may speak. */
  datatype Dialect = Undefined | HuaweiUgw | CiscoSce | Procera | Ericsson | RxIms
}
