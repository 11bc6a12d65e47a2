/**
 * Parameter placeholders in T-SQL statement text. A placeholder is an '@'
 * followed by the identifier characters after it; the driver binds each one
 * by name to a declared input, so text outside placeholders is fixed SQL.
 */
module SqlText {

  /**
   * Characters that continue a parameter name: letters, digits, '_', '#', '$'.
   * (T-SQL also admits '@' there; no statement built here has two '@' in a row.)
   */
  predicate IsIdentChar(c: char) {
    ('a' <= c <= 'z') || ('A' <= c <= 'Z') || ('0' <= c <= '9') || c == '_' || c == '#' || c == '$'
  }

  /** Length of the longest prefix of `s` made of identifier characters. */
  function IdentRun(s: string): (n: nat)
    ensures n <= |s|
    decreases |s|
  {
    if s != [] && IsIdentChar(s[0]) then 1 + IdentRun(s[1..]) else 0
  }

  /** The names of the placeholders in `s`, left to right, without their '@'. */
  function Placeholders(s: string): seq<string>
    decreases |s|
  {
    if s == [] then []
    else if s[0] == '@' then
      var n := IdentRun(s[1..]);
      [s[1..1 + n]] + Placeholders(s[1 + n..])
    else Placeholders(s[1..])
  }

  /** Text starting with a character that cannot continue an identifier. */
  predicate StartsDetached(s: string) {
    s == [] || !IsIdentChar(s[0])
  }

  lemma {:induction false} IdentRunAppend(a: string, b: string)
    requires StartsDetached(b)
    ensures IdentRun(a + b) == IdentRun(a)
    decreases |a|
  {
    if a == [] {
    } else {
      assert (a + b)[0] == a[0];
      if IsIdentChar(a[0]) {
        assert (a + b)[1..] == a[1..] + b;
        IdentRunAppend(a[1..], b);
      }
    }
  }

  /** Placeholders of a concatenation, when the second part cannot extend a name of the first. */
  lemma {:induction false} PlaceholdersAppend(a: string, b: string)
    requires StartsDetached(b)
    ensures Placeholders(a + b) == Placeholders(a) + Placeholders(b)
    decreases |a|
  {
    if a == [] {
      assert a + b == b;
    } else if a[0] == '@' {
      PlaceholdersAppendAt(a, b);
    } else {
      var ab := a + b;
      assert ab[0] == a[0];
      assert ab[1..] == a[1..] + b;
      PlaceholdersAppend(a[1..], b);
    }
  }

  lemma {:induction false} PlaceholdersAppendAt(a: string, b: string)
    requires StartsDetached(b)
    requires a != [] && a[0] == '@'
    ensures Placeholders(a + b) == Placeholders(a) + Placeholders(b)
    decreases |a|, 0
  {
    var ab := a + b;
    var n := IdentRun(a[1..]);
    assert ab[0] == '@';
    SliceAppendRight(a, b, 1);
    IdentRunAppend(a[1..], b);
    assert Placeholders(ab) == [ab[1..1 + n]] + Placeholders(ab[1 + n..]);
    assert Placeholders(a) == [a[1..1 + n]] + Placeholders(a[1 + n..]);
    SliceAppendLeft(a, b, 1, 1 + n);
    SliceAppendRight(a, b, 1 + n);
    PlaceholdersAppend(a[1 + n..], b);
  }

  /** Text without an '@' holds no placeholders. */
  lemma {:induction false} NoPlaceholders(s: string)
    requires '@' !in s
    ensures Placeholders(s) == []
    decreases |s|
  {
    if s != [] {
      assert s == [s[0]] + s[1..];
      NoPlaceholders(s[1..]);
    }
  }

  /** `lead + "@" + name + trail` holds exactly the one placeholder `name`. */
  lemma SinglePlaceholder(lead: string, name: string, trail: string)
    requires '@' !in lead
    requires forall i :: 0 <= i < |name| ==> IsIdentChar(name[i])
    requires StartsDetached(trail)
    requires '@' !in trail
    ensures Placeholders(lead + ("@" + (name + trail))) == [name]
  {
    var rest := "@" + (name + trail);
    NoPlaceholders(lead);
    NoPlaceholders(trail);
    LeadingPlaceholder(name, trail);
    PlaceholdersAppend(lead, rest);
  }

  lemma LeadingPlaceholder(name: string, trail: string)
    requires forall i :: 0 <= i < |name| ==> IsIdentChar(name[i])
    requires StartsDetached(trail)
    requires Placeholders(trail) == []
    ensures Placeholders("@" + (name + trail)) == [name]
  {
    var tail := name + trail;
    var rest := "@" + tail;
    var n := |name|;
    SliceAppendRight("@", tail, 1);
    assert rest[1..] == tail;
    IdentRunAll(name, trail);
    assert IdentRun(rest[1..]) == n;
    assert rest[1..1 + n] == name;
    assert rest[1 + n..] == trail;
    assert Placeholders(rest) == [rest[1..1 + n]] + Placeholders(rest[1 + n..]);
  }

  lemma {:induction false} IdentRunAll(name: string, trail: string)
    requires forall i :: 0 <= i < |name| ==> IsIdentChar(name[i])
    requires StartsDetached(trail)
    ensures IdentRun(name + trail) == |name|
    decreases |name|
  {
    if name == [] {
      assert name + trail == trail;
    } else {
      assert (name + trail)[1..] == name[1..] + trail;
      IdentRunAll(name[1..], trail);
    }
  }

  lemma SliceAppendLeft(a: string, b: string, i: nat, j: nat)
    requires i <= j <= |a|
    ensures (a + b)[i..j] == a[i..j]
  {
    var x, y := (a + b)[i..j], a[i..j];
    forall k | 0 <= k < j - i ensures x[k] == y[k] {
      assert x[k] == (a + b)[i + k];
    }
  }

  lemma SliceAppendRight(a: string, b: string, i: nat)
    requires i <= |a|
    ensures (a + b)[i..] == a[i..] + b
  {
    var x, y := (a + b)[i..], a[i..] + b;
    forall k | 0 <= k < |x| ensures x[k] == y[k] {
      assert x[k] == (a + b)[i + k];
    }
  }
}
