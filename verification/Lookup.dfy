/** Looking up the members of a decoded object by name. */
module Lookup {
  import opened Seqs
  import opened Json

  /** The value of the first member of this name. */
  function MemberValue(members: seq<Member>, name: string): Option<Json> {
    if members == [] then None
    else if members[0].name == name then Some(members[0].value)
    else MemberValue(members[1..], name)
  }

  lemma {:induction false} MemberConcat(a: seq<Member>, b: seq<Member>, name: string)
    ensures MemberValue(a + b, name)
         == if MemberValue(a, name).Some? then MemberValue(a, name) else MemberValue(b, name)
  {
    if a == [] {
      assert a + b == b;
    } else {
      MemberConcat(a[1..], b, name);
      assert (a + b)[1..] == a[1..] + b;
    }
  }
}
