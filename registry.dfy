/// The appender registry as data: a dictionary keyed by appender name plus
/// the order in which its keys enumerate (insertion order; re-assigning a
/// key keeps its place, deleting it drops it).
module Registry {
  import opened Appenders

  /** Each key occurs once: no key occurs again after its first position. */
  predicate NoDuplicates(s: seq<string>) {
    s == [] || (s[0] !in s[1..] && NoDuplicates(s[1..]))
  }

  /** Appending a key not yet listed keeps every key unique. */
  lemma {:induction false} NoDuplicatesAppend(s: seq<string>, x: string)
    requires NoDuplicates(s) && x !in s
    ensures NoDuplicates(s + [x])
  {
    if s != [] {
      assert (s + [x])[1..] == s[1..] + [x];
      NoDuplicatesAppend(s[1..], x);
    }
  }

  /** Two positions of a list without duplicates hold different keys. */
  lemma {:induction false} NoDuplicatesAt(s: seq<string>, i: nat, j: nat)
    requires NoDuplicates(s) && i < j < |s|
    ensures s[i] != s[j]
  {
    if i == 0 {
      assert s[j] == s[1..][j - 1];
    } else {
      NoDuplicatesAt(s[1..], i - 1, j - 1);
    }
  }

  /** What every state of the registry satisfies: the key order lists each
      key exactly once, and every entry is a marked appender stored under its
      own name. */
  ghost predicate Registered(entries: map<string, Appender>, order: seq<string>) {
    && NoDuplicates(order)
    && (forall k :: k in order <==> k in entries)
    && (forall k :: k in entries ==> entries[k].name == k && entries[k].marked)
  }

  /** The key order after `delete` of key `x`. */
  function Without(s: seq<string>, x: string): (r: seq<string>)
    ensures forall y :: y in r <==> y in s && y != x
    ensures x !in s ==> r == s
    ensures NoDuplicates(s) ==> NoDuplicates(r)
    ensures |r| <= |s|
  {
    if s == [] then []
    else if s[0] == x then Without(s[1..], x)
    else
      var rest := Without(s[1..], x);
      assert NoDuplicates(s) ==> s[0] !in s[1..] && NoDuplicates(s[1..]);
      [s[0]] + rest
  }

  /** Deleting a key that sits at position i keeps every other key in place. */
  lemma {:induction false} WithoutAt(s: seq<string>, x: string, i: nat)
    requires NoDuplicates(s) && i < |s| && s[i] == x
    ensures Without(s, x) == s[..i] + s[i + 1..]
  {
    if i == 0 {
      assert s[0] !in s[1..];
    } else {
      NoDuplicatesAt(s, 0, i);
      WithoutAt(s[1..], x, i - 1);
      calc {
        Without(s, x);
        [s[0]] + Without(s[1..], x);
        [s[0]] + (s[1..][..i - 1] + s[1..][i..]);
        { assert [s[0]] + s[1..][..i - 1] == s[..i]; assert s[1..][i..] == s[i + 1..]; }
        s[..i] + s[i + 1..];
      }
    }
  }
}
