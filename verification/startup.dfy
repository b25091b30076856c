/**
 * The start-up check: the service refuses to start, with exit status 1,
 * when any of the four connection settings is absent or empty in the
 * environment, and lists the missing names in their fixed order.
 */
module Startup {

  /** The settings the service needs, in the order they are checked and reported. */
  const RequiredVars: seq<string> := ["MATRIX_HOMESERVER", "MATRIX_USER", "MATRIX_PASSWORD", "MATRIX_ROOM_ID"]

  const MissingVarsPrefix: string := "Error: Missing required environment variables: "
  const ListSeparator: string := ", "
  const ListenHost: string := "0.0.0.0"
  const ListenPort: int := 5000

  /** `not os.environ.get(name)`: the variable is absent or holds the empty string. */
  predicate Unset(env: map<string, string>, name: string) {
    name !in env || env[name] == ""
  }

  /** `a` can be obtained from `b` by deleting elements, keeping the order of the rest. */
  predicate IsSubsequence(a: seq<string>, b: seq<string>)
    decreases |b|
  {
    if a == [] then true
    else if b == [] then false
    else if a[0] == b[0] then IsSubsequence(a[1..], b[1..])
    else IsSubsequence(a, b[1..])
  }

  predicate Distinct(s: seq<string>) {
    forall i, j :: 0 <= i < j < |s| ==> s[i] != s[j]
  }

  /** The names among `names` that are unset, in the order they appear in `names`. */
  function MissingVars(names: seq<string>, env: map<string, string>): (missing: seq<string>)
    ensures forall v :: v in missing <==> v in names && Unset(env, v)
    ensures IsSubsequence(missing, names)
    decreases |names|
  {
    if names == [] then []
    else
      var rest := MissingVars(names[1..], env);
      assert forall v :: v in names <==> v == names[0] || v in names[1..];
      if Unset(env, names[0]) then [names[0]] + rest
      else
        SubsequenceOfTail(rest, names);
        rest
  }

  lemma {:induction false} SubsequenceOfTail(a: seq<string>, b: seq<string>)
    requires b != [] && IsSubsequence(a, b[1..])
    ensures IsSubsequence(a, b)
    decreases |b|
  {
    if a != [] && a[0] == b[0] {
      SubsequenceShortens(a, b[1..]);
      SubsequenceOfTail(a[1..], b[1..]);
    }
  }

  /** Dropping the head of a subsequence keeps it a subsequence of a shorter suffix. */
  lemma {:induction false} SubsequenceShortens(a: seq<string>, b: seq<string>)
    requires a != [] && IsSubsequence(a, b)
    ensures IsSubsequence(a[1..], b[1..])
    decreases |b|
  {
    if a[0] != b[0] {
      SubsequenceShortens(a, b[1..]);
      SubsequenceOfTail(a[1..], b[1..]);
    }
  }

  /** Every element of a subsequence occurs in the sequence it was taken from. */
  lemma {:induction false} SubsequenceMembers(a: seq<string>, b: seq<string>)
    requires IsSubsequence(a, b)
    ensures forall x :: x in a ==> x in b
    decreases |b|
  {
    if a != [] {
      if a[0] == b[0] {
        SubsequenceMembers(a[1..], b[1..]);
        assert forall x :: x in a ==> x == a[0] || x in a[1..];
      } else {
        SubsequenceMembers(a, b[1..]);
      }
    }
  }

  /**
   * For names without repetitions, the missing list is the only ordered
   * selection of `names` that holds exactly the unset ones.
   */
  lemma {:induction false} MissingVarsUnique(names: seq<string>, env: map<string, string>, s: seq<string>)
    requires Distinct(names)
    requires IsSubsequence(s, names)
    requires forall v :: v in s <==> v in names && Unset(env, v)
    ensures s == MissingVars(names, env)
    decreases |names|
  {
    if names != [] {
      var head := names[0];
      var tail := names[1..];
      assert head !in tail;
      assert Distinct(tail) by {
        forall i, j | 0 <= i < j < |tail|
          ensures tail[i] != tail[j]
        {
          assert tail[i] == names[i + 1] && tail[j] == names[j + 1];
        }
      }
      if Unset(env, head) {
        assert head in s;
        if s[0] != head {
          SubsequenceMembers(s, tail);
          assert false;
        }
        SubsequenceShortens(s, names);
        SubsequenceMembers(s[1..], tail);
        forall v
          ensures v in s[1..] <==> v in tail && Unset(env, v)
        {
          assert v in s <==> v == s[0] || v in s[1..];
        }
        MissingVarsUnique(tail, env, s[1..]);
      } else {
        if s != [] && s[0] == head {
          assert false;
        }
        if s != [] {
          assert IsSubsequence(s, tail);
        }
        SubsequenceMembers(s, tail);
        MissingVarsUnique(tail, env, s);
      }
    }
  }

  /** `sep.join(parts)`. */
  function Join(sep: string, parts: seq<string>): string {
    if |parts| == 0 then ""
    else if |parts| == 1 then parts[0]
    else parts[0] + sep + Join(sep, parts[1..])
  }

  /** What the process does at start-up: exit with a status and a message, or serve on an address. */
  datatype Outcome = Exit(code: int, message: string) | Listen(host: string, port: int)

  /** Starting the service with the environment `env`. */
  function Start(env: map<string, string>): (o: Outcome)
    ensures o.Exit? <==> exists i :: 0 <= i < |RequiredVars| && Unset(env, RequiredVars[i])
    ensures o.Exit? ==>
      o.code == 1 && o.message == MissingVarsPrefix + Join(ListSeparator, MissingVars(RequiredVars, env))
    ensures o.Listen? ==> o == Listen(ListenHost, ListenPort)
  {
    var missing := MissingVars(RequiredVars, env);
    if |missing| > 0 then
      assert missing[0] in RequiredVars;
      Exit(1, MissingVarsPrefix + Join(ListSeparator, missing))
    else
      Listen(ListenHost, ListenPort)
  }
}
