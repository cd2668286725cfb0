/**
 * MainActivity.getUsername: the user name sent with every payload is the
 * part of the first Google account name before its first '@', computed with
 * Java's String.split("@"). The accounts are given as a list of names (a
 * null name is None).
 */
module Accounts {
  import opened Optional

  const Separator: char := '@'

  /** The prefix of s before its first separator; all of s when it has none. */
  function LocalPart(s: string): (r: string)
    ensures r <= s
    ensures Separator !in r
    ensures |r| < |s| ==> s[|r|] == Separator
  {
    if s == [] || s[0] == Separator then [] else [s[0]] + LocalPart(s[1..])
  }

  /** A non-empty name made of separators only. */
  predicate OnlySeparators(s: string) {
    |s| > 0 && forall j :: 0 <= j < |s| ==> s[j] == Separator
  }

  /** The pieces of s between separators, in order, empty pieces included. */
  function Pieces(s: string): (r: seq<string>)
    ensures |r| >= 1
  {
    if s == [] then [[]]
    else
      var rest := Pieces(s[1..]);
      if s[0] == Separator then [[]] + rest
      else [[s[0]] + rest[0]] + rest[1..]
  }

  /** The pieces glued back together with a separator between neighbours. */
  function Join(ps: seq<string>): string
    requires |ps| >= 1
  {
    if |ps| == 1 then ps[0] else ps[0] + [Separator] + Join(ps[1..])
  }

  /** The longest prefix of ps that does not end in an empty piece. */
  function DropTrailingEmpty(ps: seq<string>): (r: seq<string>)
    ensures r <= ps
    ensures r == [] || r[|r| - 1] != []
    ensures forall i :: |r| <= i < |ps| ==> ps[i] == []
  {
    if ps == [] || ps[|ps| - 1] != [] then ps else DropTrailingEmpty(ps[..|ps| - 1])
  }

  /**
   * String.split("@") with Java's rules: a string without a separator
   * splits into itself alone, otherwise into its pieces with the trailing
   * empty ones removed.
   */
  function JavaSplit(s: string): seq<string> {
    if Separator !in s then [s] else DropTrailingEmpty(Pieces(s))
  }

  /** getUsername over the names of the Google accounts, in the order the account manager lists them. */
  function GetUsername(accounts: seq<Option<string>>): Option<string> {
    if |accounts| == 0 || accounts[0].None? then None
    else
      var parts := JavaSplit(accounts[0].value);
      if |parts| > 0 then Some(parts[0]) else None
  }

  /** Pieces cuts s exactly at its separators: no piece holds one, and joining them restores s. */
  lemma {:induction false} PiecesJoin(s: string)
    ensures forall i :: 0 <= i < |Pieces(s)| ==> Separator !in Pieces(s)[i]
    ensures Join(Pieces(s)) == s
  {
    if s != [] {
      var rest := Pieces(s[1..]);
      PiecesJoin(s[1..]);
      if s[0] == Separator {
        assert Pieces(s) == [[]] + rest;
        assert ([[]] + rest)[1..] == rest;
        assert Join(Pieces(s)) == [Separator] + Join(rest);
        assert s == [s[0]] + s[1..];
      } else {
        var first := [s[0]] + rest[0];
        assert Pieces(s) == [first] + rest[1..];
        if |rest| == 1 {
          assert Join(Pieces(s)) == first;
          assert s == [s[0]] + s[1..];
        } else {
          assert ([first] + rest[1..])[1..] == rest[1..];
          assert Join(Pieces(s)) == first + [Separator] + Join(rest[1..]);
          assert Join(rest) == rest[0] + [Separator] + Join(rest[1..]);
          assert s == [s[0]] + s[1..];
        }
        forall i | 0 <= i < |Pieces(s)|
          ensures Separator !in Pieces(s)[i]
        {
          if i > 0 { assert Pieces(s)[i] == rest[i]; }
        }
      }
    }
  }

  /** The first piece is the local part. */
  lemma {:induction false} FirstPieceIsLocalPart(s: string)
    ensures Pieces(s)[0] == LocalPart(s)
  {
    if s != [] && s[0] != Separator {
      FirstPieceIsLocalPart(s[1..]);
    }
  }

  /** Every piece is empty exactly when every character is a separator. */
  lemma {:induction false} PiecesAllEmpty(s: string)
    ensures (forall i :: 0 <= i < |Pieces(s)| ==> Pieces(s)[i] == []) <==> (forall j :: 0 <= j < |s| ==> s[j] == Separator)
  {
    if s != [] {
      var t := s[1..];
      var rest := Pieces(t);
      PiecesAllEmpty(t);
      if s[0] == Separator {
        var ps := Pieces(s);
        assert ps == [[]] + rest;
        assert (forall i :: 0 <= i < |ps| ==> ps[i] == []) <==> (forall i :: 0 <= i < |rest| ==> rest[i] == []) by {
          forall i | 0 <= i < |rest| ensures ps[i + 1] == rest[i] { }
        }
        assert (forall j :: 0 <= j < |s| ==> s[j] == Separator) <==> (forall j :: 0 <= j < |t| ==> t[j] == Separator) by {
          forall j | 0 <= j < |t| ensures s[j + 1] == t[j] { }
        }
      } else {
        assert Pieces(s)[0] == [s[0]] + rest[0];
      }
    }
  }

  /** A name without a separator is its own local part. */
  lemma LocalPartWithoutSeparator(s: string)
    requires Separator !in s
    ensures LocalPart(s) == s
  {
  }

  /**
   * getUsername is null when there is no account, when the first name is
   * null, or when that name is made of separators only (Java's split then
   * returns an empty array); otherwise it is the name's local part.
   */
  lemma GetUsernameSpec(accounts: seq<Option<string>>)
    ensures GetUsername(accounts).None? <==>
      |accounts| == 0 || accounts[0].None? || OnlySeparators(accounts[0].value)
    ensures GetUsername(accounts).Some? ==>
      GetUsername(accounts).value == LocalPart(accounts[0].value)
  {
    if |accounts| > 0 && accounts[0].Some? {
      var s := accounts[0].value;
      if Separator !in s {
        LocalPartWithoutSeparator(s);
        if |s| > 0 { assert s[0] in s; }
      } else {
        var ps := Pieces(s);
        var parts := DropTrailingEmpty(ps);
        FirstPieceIsLocalPart(s);
        PiecesAllEmpty(s);
        var j :| 0 <= j < |s| && s[j] == Separator;
        if parts == [] {
          assert forall i :: 0 <= i < |ps| ==> ps[i] == [];
          assert OnlySeparators(s);
        } else {
          assert parts[0] == ps[0];
          assert parts[|parts| - 1] == ps[|parts| - 1] != [];
        }
      }
    }
  }
}
