/**
 * The recipient list of the smtp action: the `dest` setting is one string of
 * addresses separated by comma and space, and `_sendMessage` hands the relay
 * `toaddr.split(", ")`.
 */
module Recipients {

  /** The default `dest` of the action. */
  const DefaultDest: string := "root"

  /** `p` holds no comma directly followed by a space. */
  predicate NoSeparator(p: string)
  {
    forall k :: 0 <= k < |p| - 1 ==> !(p[k] == ',' && p[k + 1] == ' ')
  }

  /** Python's `s.split(", ")`: the pieces between the separators, scanning
      from the left; an empty string gives one empty piece and two adjacent
      separators give an empty piece between them. There is always at least
      one piece, the first piece starts `s`, and no piece holds a separator. */
  function Split(s: string): (parts: seq<string>)
    ensures |parts| >= 1
    ensures parts[0] <= s
    ensures forall k :: 0 <= k < |parts| ==> NoSeparator(parts[k])
    decreases |s|
  {
    if |s| < 2 then [s]
    else if s[0] == ',' && s[1] == ' ' then [""] + Split(s[2..])
    else
      var rest := Split(s[1..]);
      assert rest[0] != [] ==> rest[0][0] == s[1];
      [[s[0]] + rest[0]] + rest[1..]
  }

  /** Python's `", ".join(parts)`. */
  function Join(parts: seq<string>): string
  {
    if parts == [] then ""
    else if |parts| == 1 then parts[0]
    else parts[0] + ", " + Join(parts[1..])
  }

  /** Joining the split list back reproduces the setting: no address is lost
      or altered by splitting. */
  lemma {:induction false} JoinSplit(s: string)
    ensures Join(Split(s)) == s
    decreases |s|
  {
    if |s| < 2 {
    } else if s[0] == ',' && s[1] == ' ' {
      JoinSplit(s[2..]);
      var parts := Split(s);
      assert parts[1..] == Split(s[2..]);
      assert s == "" + ", " + s[2..];
    } else {
      JoinSplit(s[1..]);
      var rest := Split(s[1..]);
      if |rest| == 1 {
        assert s == [s[0]] + rest[0];
      } else {
        var parts := Split(s);
        assert parts[1..] == rest[1..];
        assert s == [s[0]] + rest[0] + ", " + Join(rest[1..]);
      }
    }
  }

  /** Splitting after a piece free of separators stops right after it. */
  lemma {:induction false} SplitAfterPart(p: string, r: string)
    requires NoSeparator(p)
    ensures Split(p + ", " + r) == [p] + Split(r)
    decreases |p|
  {
    var s := p + ", " + r;
    if p == [] {
      assert s[2..] == r;
    } else {
      assert s[0] == p[0];
      assert s[1..] == p[1..] + ", " + r;
      assert NoSeparator(p[1..]) by {
        forall k | 0 <= k < |p[1..]| - 1 ensures !(p[1..][k] == ',' && p[1..][k + 1] == ' ') {
          assert p[1..][k] == p[k + 1] && p[1..][k + 1] == p[k + 2];
        }
      }
      SplitAfterPart(p[1..], r);
      assert [s[0]] + p[1..] == p;
    }
  }

  /** A piece free of separators splits into itself. */
  lemma {:induction false} SplitSingle(p: string)
    requires NoSeparator(p)
    ensures Split(p) == [p]
    decreases |p|
  {
    if |p| >= 2 {
      assert NoSeparator(p[1..]) by {
        forall k | 0 <= k < |p[1..]| - 1 ensures !(p[1..][k] == ',' && p[1..][k + 1] == ' ') {
          assert p[1..][k] == p[k + 1] && p[1..][k + 1] == p[k + 2];
        }
      }
      SplitSingle(p[1..]);
      assert [p[0]] + p[1..] == p;
    }
  }

  /** Splitting a joined list of addresses, none holding a separator, gives
      the list back. */
  lemma {:induction false} SplitJoin(parts: seq<string>)
    requires |parts| >= 1
    requires forall k :: 0 <= k < |parts| ==> NoSeparator(parts[k])
    ensures Split(Join(parts)) == parts
  {
    if |parts| == 1 {
      SplitSingle(parts[0]);
    } else {
      SplitJoin(parts[1..]);
      SplitAfterPart(parts[0], Join(parts[1..]));
      assert [parts[0]] + parts[1..] == parts;
    }
  }

  /** With the default setting there is exactly one recipient, "root". */
  lemma DefaultRecipients()
    ensures Split(DefaultDest) == ["root"]
  {
    SplitSingle(DefaultDest);
  }
}
