/** The contact-messages dashboard: the relative age shown next to each message
    and the `contacts` / `loading` / `error` state its fetch and delete handlers
    change. Times are integers in milliseconds; the clock is a parameter. */
module ContactManager {
  import opened JsValues
  import opened Sections
  import opened UserModel
  import Text

  /** The `dateString` argument: falsy, a string `new Date` cannot parse, or a time. */
  datatype DateArg = Falsy | Invalid | At(ms: int)

  const MsPerMinute := 60000
  const MsPerHour := 3600000
  const MsPerDay := 86400000

  /** A quotient and remainder pin down the Euclidean division. */
  lemma DivUnique(a: int, d: int, q: int, r: int)
    requires d > 0 && a == d * q + r && 0 <= r < d
    ensures a / d == q
  {
    var q', r' := a / d, a % d;
    assert d * (q - q') == r' - r;
    MulAtLeast(d, q - q');
  }

  /** A non-zero multiple of a positive `d` is at least `d` away from zero. */
  lemma MulAtLeast(d: int, k: int)
    requires d > 0
    ensures k >= 1 ==> d * k >= d
    ensures k <= -1 ==> d * k <= -d
  {
    assert d * k == d + d * (k - 1);
    assert d * k == -d + d * (k + 1);
  }

  /** Flooring twice is flooring once by the product: `floor(floor(a / b) / c) == floor(a / (b * c))`
      for positive divisors. Dafny's `/` on `int` with a positive divisor is the floor. */
  lemma DivDiv(a: int, b: int, c: int)
    requires b > 0 && c > 0
    ensures (a / b) / c == a / (b * c)
  {
    var q, r := a / b, a % b;
    var q2, r2 := q / c, q % c;
    NestedQuotient(a, b, c, q, r, q2, r2);
    NestedRemainderBound(b, c, r, r2);
    DivUnique(a, b * c, q2, b * r2 + r);
  }

  /** Substituting one division equation into the other. */
  lemma NestedQuotient(a: int, b: int, c: int, q: int, r: int, q2: int, r2: int)
    requires a == b * q + r && q == c * q2 + r2
    ensures a == (b * c) * q2 + (b * r2 + r)
  {
    assert b * q == b * (c * q2) + b * r2;
    assert b * (c * q2) == (b * c) * q2;
  }

  /** The combined remainder stays below the product of the divisors. */
  lemma NestedRemainderBound(b: int, c: int, r: int, r2: int)
    requires b > 0 && 0 <= r < b && 0 <= r2 < c
    ensures 0 <= b * r2 + r < b * c
  {
    MulAtLeast(b, r2);
    MulAtLeast(b, c - 1 - r2);
    assert b * c == b * r2 + b * (c - 1 - r2) + b;
  }

  /** The source's chain of floors from milliseconds to days gives the direct
      quotients, and under a minute every one of them is at most zero. */
  lemma ChainedFloors(diffMs: int)
    ensures diffMs / 1000 / 60 == diffMs / MsPerMinute
    ensures diffMs / 1000 / 60 / 60 == diffMs / MsPerHour
    ensures diffMs / 1000 / 60 / 60 / 24 == diffMs / MsPerDay
    ensures diffMs < MsPerMinute ==> diffMs / MsPerMinute <= 0 && diffMs / MsPerHour <= 0 && diffMs / MsPerDay <= 0
  {
    DivDiv(diffMs, 1000, 60);
    DivDiv(diffMs, MsPerMinute, 60);
    DivDiv(diffMs, MsPerHour, 24);
    if diffMs < MsPerMinute {
      DivDiv(diffMs, MsPerMinute, 60);
      DivDiv(diffMs, MsPerMinute, 1440);
      assert diffMs / MsPerMinute <= 0 by {
        DivUnique(diffMs, MsPerMinute, diffMs / MsPerMinute, diffMs % MsPerMinute);
      }
    }
  }

  /** `n === 1 ? '1 <unit> ago' : `${n} <unit>s ago``. */
  function Phrase(n: nat, unit: string): (r: string)
    ensures r == Text.NatToString(n) + " " + unit + (if n == 1 then "" else "s") + " ago"
  {
    assert Text.NatToString(1) == "1";
    if n == 1 then "1 " + unit + " ago" else Text.NatToString(n) + " " + unit + "s ago"
  }

  /** `getTimeSince`: the difference is floored to seconds, then minutes, hours and
      days, and the first positive unit of days, hours, minutes is phrased. */
  function TimeSince(date: DateArg, now: int): (r: string)
    ensures date == Falsy ==> r == ""
    ensures date == Invalid ==> r == "Just now"
    ensures date.At? ==>
      var d := now - date.ms;
      if d / MsPerDay > 0 then r == Phrase(d / MsPerDay, "day")
      else if d / MsPerHour > 0 then r == Phrase(d / MsPerHour, "hour")
      else if d / MsPerMinute > 0 then r == Phrase(d / MsPerMinute, "minute")
      else r == "Just now"
    ensures date.At? && now - date.ms < MsPerMinute ==> r == "Just now"
  {
    match date
    case Falsy => ""
    case Invalid => "Just now"
    case At(ms) =>
      var diffMs := now - ms;
      var diffSec := diffMs / 1000;
      var diffMin := diffSec / 60;
      var diffHour := diffMin / 60;
      var diffDay := diffHour / 24;
      ChainedFloors(diffMs);
      if diffDay > 0 then Phrase(diffDay, "day")
      else if diffHour > 0 then Phrase(diffHour, "hour")
      else if diffMin > 0 then Phrase(diffMin, "minute")
      else "Just now"
  }

  /** A message exactly one day old reads "1 day ago"; two days, "2 days ago". */
  lemma DayPhrases(now: int)
    ensures TimeSince(At(now - MsPerDay), now) == "1 day ago"
    ensures TimeSince(At(now - 2 * MsPerDay), now) == "2 days ago"
  {
    assert Text.NatToString(2) == "2";
  }

  /** What `fetchContacts` got from the service: the data, or a thrown error. */
  datatype FetchOutcome = Loaded(data: JsVal<seq<Entry<ContactMessage>>>) | FetchFailed

  const LoadFailed := "Failed to load contacts. Please try again."
  const DeleteFailed := "Failed to delete contact. Please try again."

  class ContactList {
    var contacts: seq<Entry<ContactMessage>>
    var loading: bool
    var error: Option<string>

    constructor ()
      ensures contacts == [] && loading && error.None?
    {
      contacts, loading, error := [], true, None;
    }

    /** `fetchContacts`: on success the list is `data || []` and the error is
        cleared; on failure the list is kept and the error set; loading ends either way. */
    method FetchContacts(outcome: FetchOutcome)
      modifies this
      ensures !loading
      ensures outcome.Loaded? ==> contacts == OrEmpty(outcome.data) && error.None?
      ensures outcome.FetchFailed? ==> contacts == old(contacts) && error == Some(LoadFailed)
    {
      loading := true;
      match outcome {
        case Loaded(data) =>
          contacts := OrEmpty(data);
          error := None;
        case FetchFailed =>
          error := Some(LoadFailed);
      }
      loading := false;
    }

    /** `handleDelete`: only after the user confirms, the delete call is made; when it
        succeeds the list is fetched again, when it fails the error is set. The list
        itself changes only through that fetch. */
    method HandleDelete(id: Id, confirmed: bool, deleted: bool) returns (call: Option<Id>, refetch: bool)
      modifies this`error
      ensures !confirmed ==> call.None? && !refetch && error == old(error)
      ensures confirmed ==> call == Some(id)
      ensures confirmed && deleted ==> refetch && error == old(error)
      ensures confirmed && !deleted ==> !refetch && error == Some(DeleteFailed)
    {
      call, refetch := None, false;
      if confirmed {
        call := Some(id);
        if deleted {
          refetch := true;
        } else {
          error := Some(DeleteFailed);
        }
      }
    }
  }
}
