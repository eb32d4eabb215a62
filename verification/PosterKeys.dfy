/** The two ways a poster request is turned into a key: the length-prefixed text
    posterKeyBase digests, and the digest of digests that names a job. */
module PosterKeys {
  import opened Common
  import opened Digits

  // ---------------------------------------------------------------------
  // Length-prefixed fields
  // ---------------------------------------------------------------------

  function Prefixed(f: string): string {
    Decimal(|f|) + ":" + f
  }

  function DigestInput(fields: seq<string>): string {
    if fields == [] then "" else Prefixed(fields[0]) + DigestInput(fields[1..])
  }

  /** Reads the fields back; text that is no list of fields ends the list. */
  function Fields(s: string): seq<string>
    decreases |s|
  {
    match IndexOf(s, ':')
    case None => []
    case Some(k) =>
      if !AllDigits(s[..k]) || k + 1 + Number(s[..k]) > |s| then []
      else
        var n := Number(s[..k]);
        [s[k + 1..k + 1 + n]] + Fields(s[k + 1 + n..])
  }

  lemma FirstField(f: string, rest: string)
    ensures Fields(Prefixed(f) + rest) == [f] + Fields(rest)
  {
    hide Decimal, Number;
    var digits := Decimal(|f|);
    var s := Prefixed(f) + rest;
    assert s == digits + ":" + (f + rest);
    assert ':' !in digits by {
      DigitsHoldNoColon(digits);
    }
    IndexOfSeparator(digits, ':', f + rest);
    NumberOfDecimal(|f|);
    assert s[..|digits|] == digits;
    assert s[|digits| + 1..|digits| + 1 + |f|] == f;
    assert s[|digits| + 1 + |f|..] == rest;
  }

  lemma DigitsHoldNoColon(s: string)
    requires AllDigits(s)
    ensures ':' !in s
  {
  }

  lemma {:induction false} FieldsComeBack(fields: seq<string>)
    ensures Fields(DigestInput(fields)) == fields
  {
    hide Fields, Prefixed;
    if fields == [] {
      NoFields();
    } else {
      FirstField(fields[0], DigestInput(fields[1..]));
      FieldsComeBack(fields[1..]);
      assert fields == [fields[0]] + fields[1..];
    }
  }

  lemma NoFields()
    ensures Fields("") == []
  {
  }

  /** The text that is digested: each field after its length and a colon. */
  lemma DigestInputText(performer: string, venue: string, date: string)
    ensures DigestInput([performer, venue, date])
            == Decimal(|performer|) + ":" + performer
               + (Decimal(|venue|) + ":" + venue + (Decimal(|date|) + ":" + date))
  {
    hide DigestInput, Prefixed;
    DigestInputCons(performer, [venue, date]);
    DigestInputCons(venue, [date]);
    DigestInputCons(date, []);
    assert [performer] + [venue, date] == [performer, venue, date] && [venue] + [date] == [venue, date]
        && [date] + [] == [date];
    assert Prefixed(date) + "" == Prefixed(date);
    PrefixedText(performer);
    PrefixedText(venue);
    PrefixedText(date);
  }

  lemma DigestInputCons(f: string, rest: seq<string>)
    ensures DigestInput([f] + rest) == Prefixed(f) + DigestInput(rest) && DigestInput([]) == ""
  {
    hide Prefixed;
    assert ([f] + rest)[1..] == rest;
  }

  lemma PrefixedText(f: string)
    ensures Prefixed(f) == Decimal(|f|) + ":" + f
  {
    hide Decimal;
  }

  /** Two requests share a digest input only if their normalized fields agree. */
  lemma DigestInputIsInjective(normalize: string -> string, performer: string, venue: string, date: string,
                               performer': string, venue': string, date': string)
    requires DigestInput([normalize(performer), normalize(venue), normalize(date)])
          == DigestInput([normalize(performer'), normalize(venue'), normalize(date')])
    ensures normalize(performer) == normalize(performer') && normalize(venue) == normalize(venue')
            && normalize(date) == normalize(date')
  {
    hide DigestInput, Fields;
    var a, b := [normalize(performer), normalize(venue), normalize(date)],
        [normalize(performer'), normalize(venue'), normalize(date')];
    FieldsComeBack(a);
    FieldsComeBack(b);
    assert a[0] == b[0] && a[1] == b[1] && a[2] == b[2];
  }

  // ---------------------------------------------------------------------
  // A digest of digests
  // ---------------------------------------------------------------------

  type Bytes = seq<byte>

  /** hex.EncodeToString. */
  function Hex(bs: Bytes): string {
    if bs == [] then "" else [HexDigit(bs[0] / 16), HexDigit(bs[0] % 16)] + Hex(bs[1..])
  }

  /** hash stands for SHA-256, normalize for the canonical bytes of a field. */
  method JobID(hash: Bytes -> Bytes, normalize: string -> Bytes, userID: string, performer: string, venue: string,
               date: string) returns (id: string)
    ensures id == Hex(JobDigest(hash, normalize(userID), normalize(performer), normalize(venue), normalize(date)))
    ensures id == Hex(hash(hash(normalize(userID)) + hash(normalize(performer))
                           + hash(normalize(venue)) + hash(normalize(date))))
  {
    hide Hex;
    var u := hash(normalize(userID));
    var p := hash(normalize(performer));
    var v := hash(normalize(venue));
    var d := hash(normalize(date));
    var joined := [];
    joined := joined + u;
    joined := joined + p;
    joined := joined + v;
    joined := joined + d;
    assert joined == u + p + v + d;
    var sum := hash(joined);
    id := Hex(sum);
  }

  function Blocks(hash: Bytes -> Bytes, user: Bytes, performer: Bytes, venue: Bytes, date: Bytes): Bytes {
    hash(user) + hash(performer) + hash(venue) + hash(date)
  }

  function JobDigest(hash: Bytes -> Bytes, user: Bytes, performer: Bytes, venue: Bytes, date: Bytes): Bytes {
    hash(Blocks(hash, user, performer, venue, date))
  }

  predicate Collide(hash: Bytes -> Bytes, x: Bytes, y: Bytes) {
    x != y && hash(x) == hash(y)
  }

  lemma {:induction false} HexIsInjective(a: Bytes, b: Bytes)
    requires Hex(a) == Hex(b)
    ensures a == b
  {
    if a == [] || b == [] {
    } else {
      HexRoundTrip(a[0]);
      HexRoundTrip(b[0]);
      var s, t := Hex(a), Hex(b);
      assert s[0] == t[0] && s[1] == t[1];
      assert a[0] == a[0] / 16 * 16 + a[0] % 16 && b[0] == b[0] / 16 * 16 + b[0] % 16;
      assert s[2..] == Hex(a[1..]) && t[2..] == Hex(b[1..]);
      HexIsInjective(a[1..], b[1..]);
      assert a == [a[0]] + a[1..] && b == [b[0]] + b[1..];
    }
  }

  lemma BlocksAreUnambiguous(n: nat, a: Bytes, b: Bytes, c: Bytes, d: Bytes, a': Bytes, b': Bytes, c': Bytes, d': Bytes)
    requires |a| == |b| == |c| == |d| == n && |a'| == |b'| == |c'| == |d'| == n
    requires a + b + c + d == a' + b' + c' + d'
    ensures a == a' && b == b' && c == c' && d == d'
  {
    var s, t := a + b + c + d, a' + b' + c' + d';
    assert s[..n] == a && s[n..2 * n] == b && s[2 * n..3 * n] == c && s[3 * n..] == d;
    assert t[..n] == a' && t[n..2 * n] == b' && t[2 * n..3 * n] == c' && t[3 * n..] == d';
  }

  /** Equal job ids mean equal normalized keys, unless the hash itself collides
      on a field or on the joined blocks. */
  lemma JobIDsAreUnambiguous(hash: Bytes -> Bytes, u: Bytes, p: Bytes, v: Bytes, d: Bytes, u': Bytes, p': Bytes,
                             v': Bytes, d': Bytes)
    requires forall x :: |hash(x)| == 32
    requires Hex(JobDigest(hash, u, p, v, d)) == Hex(JobDigest(hash, u', p', v', d'))
    ensures (u == u' && p == p' && v == v' && d == d')
            || Collide(hash, u, u') || Collide(hash, p, p') || Collide(hash, v, v') || Collide(hash, d, d')
            || Collide(hash, Blocks(hash, u, p, v, d), Blocks(hash, u', p', v', d'))
  {
    hide Hex;
    HexIsInjective(JobDigest(hash, u, p, v, d), JobDigest(hash, u', p', v', d'));
    if Blocks(hash, u, p, v, d) == Blocks(hash, u', p', v', d') {
      BlocksAreUnambiguous(32, hash(u), hash(p), hash(v), hash(d), hash(u'), hash(p'), hash(v'), hash(d'));
    }
  }

  // ---------------------------------------------------------------------
  // Why not a separator
  // ---------------------------------------------------------------------

  function Joined(separator: string, fields: seq<string>): string {
    if fields == [] then "" else if |fields| == 1 then fields[0]
        else fields[0] + separator + Joined(separator, fields[1..])
  }

  /** Whatever the separator, a field that contains it collides. */
  lemma SeparatorsCollide(separator: string)
    ensures [separator, "", ""] != ["", separator, ""] || separator == ""
    ensures Joined(separator, [separator, "", ""]) == Joined(separator, ["", separator, ""])
    ensures Joined("", ["ab", "c", ""]) == Joined("", ["a", "bc", ""])
  {
    JoinThree(separator, separator, "", "");
    JoinThree(separator, "", separator, "");
    JoinThree("", "ab", "c", "");
    JoinThree("", "a", "bc", "");
    assert "ab" + "" + "c" == "a" + "" + "bc";
    if separator != "" {
      assert [separator, "", ""][0] != ["", separator, ""][0];
    }
  }

  lemma JoinThree(separator: string, a: string, b: string, c: string)
    ensures Joined(separator, [a, b, c]) == a + separator + b + separator + c
  {
    assert [a, b, c][1..] == [b, c] && [b, c][1..] == [c];
    assert Joined(separator, [b, c]) == b + separator + c;
    assert a + separator + (b + separator + c) == a + separator + b + separator + c;
  }
}
