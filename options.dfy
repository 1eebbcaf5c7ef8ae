/** An optional value: JavaScript's `undefined` on one side, a present value on the other. */
module Options {

  datatype Option<+T> = None | Some(value: T)

  /** An optional string that JavaScript treats as true: present and non-empty. */
  predicate Truthy(a: Option<string>) {
    a.Some? && a.value != ""
  }

  /** JavaScript's `a || b` on an optional string: `a` when it is truthy,
      otherwise `b`; the result is empty only when `b` is. */
  function OrElse(a: Option<string>, b: string): (r: string)
    ensures Truthy(a) ==> r == a.value
    ensures !Truthy(a) ==> r == b
    ensures r == "" <==> !Truthy(a) && b == ""
  {
    if Truthy(a) then a.value else b
  }
}
