/** Requester ids and ticket ids as every handler derives them:
    `student_id = str(student_id) if student_id else "unknown"` and
    `f"{PREFIX}-{abs(hash(text + student_id)) % 10000:04d}"`.
    Python's string hash is salted per process, so it is a parameter `hash`. */
module TicketIds {
  import opened Wrappers
  import opened Text

  /** The id stored when a requester id is missing or empty. */
  const Unknown: string := "unknown"

  /** `str(x) if x else "unknown"`: a falsy id (None or "") becomes "unknown",
      any other string is kept as it is. */
  function NormalizeId(id: Option<string>): (r: string)
    ensures r != ""
    ensures (id.None? || id.value == "") ==> r == Unknown
    ensures (id.Some? && id.value != "") ==> r == id.value
  {
    if id.Some? && id.value != "" then id.value else Unknown
  }

  /** Normalising an already normalised id changes nothing, so normalising twice
      (once in the constructor, once again when invoking the agent) is harmless. */
  lemma NormalizeIdIdempotent(id: Option<string>)
    ensures NormalizeId(Some(NormalizeId(id))) == NormalizeId(id)
  {
  }

  /** `abs(hash(key)) % 10000`. */
  function TicketNumber(hash: string -> int, key: string): (n: nat)
    ensures n < 10000
  {
    (if hash(key) < 0 then -hash(key) else hash(key)) % 10000
  }

  /** The format spec `04d` for a number below 10000: exactly four decimal digits. */
  function Pad4(n: nat): (s: string)
    requires n < 10000
    ensures |s| == 4 && IsDigits(s)
  {
    [Digit(n / 10 / 10 / 10), Digit(n / 10 / 10 % 10), Digit(n / 10 % 10), Digit(n % 10)]
  }

  /** The four digits read back give the number. */
  lemma Pad4Value(n: nat)
    requires n < 10000
    ensures DigitsValue(Pad4(n)) == n
  {
    var s := Pad4(n);
    assert s[..3][..2][..1][..0] == [] && s[..3][..2][..1] == s[..1];
    assert s[..3][..2] == s[..2] && s[..4][..3] == s[..3] && s[..4] == s;
    assert DigitsValue(s[..1]) == n / 10 / 10 / 10;
    assert DigitsValue(s[..2]) == n / 10 / 10;
    assert DigitsValue(s[..3]) == n / 10;
  }

  /** `f"{prefix}-{n:04d}"`. */
  function FormatTicketId(prefix: string, n: nat): (id: string)
    requires n < 10000
    ensures |id| == |prefix| + 5
  {
    prefix + "-" + Pad4(n)
  }

  /** Reads a ticket id back: the prefix before the final "-NNNN" and the number NNNN. */
  function SplitTicketId(id: string): (r: Option<(string, nat)>)
    ensures r.Some? ==> r.value.1 < 10000
  {
    if |id| >= 5 && id[|id| - 5] == '-' && IsDigits(id[|id| - 4..]) then
      var digits := id[|id| - 4..];
      assert DigitsValue(digits) < 10000 by {
        DigitsValueBound(digits);
        assert Pow10(4) == 10 * Pow10(3) && Pow10(3) == 10 * Pow10(2) && Pow10(2) == 10 * Pow10(1) && Pow10(1) == 10;
      }
      Some((id[..|id| - 5], DigitsValue(digits)))
    else None
  }

  /** Formatting and reading back are inverse: the id carries its prefix and its number. */
  lemma SplitFormat(prefix: string, n: nat)
    requires n < 10000
    ensures SplitTicketId(FormatTicketId(prefix, n)) == Some((prefix, n))
  {
    var id := FormatTicketId(prefix, n);
    assert id[|id| - 4..] == Pad4(n);
    assert id[..|id| - 5] == prefix;
    Pad4Value(n);
  }

  /** Distinct (prefix, number) pairs give distinct ids. */
  lemma FormatInjective(p: string, n: nat, q: string, m: nat)
    requires n < 10000 && m < 10000
    requires FormatTicketId(p, n) == FormatTicketId(q, m)
    ensures p == q && n == m
  {
    SplitFormat(p, n);
    SplitFormat(q, m);
  }

  /** The id a handler with this prefix derives from the salient text and the requester id. */
  function MakeTicketId(prefix: string, hash: string -> int, key: string): (id: string)
    ensures SplitTicketId(id) == Some((prefix, TicketNumber(hash, key)))
  {
    SplitFormat(prefix, TicketNumber(hash, key));
    FormatTicketId(prefix, TicketNumber(hash, key))
  }
}
