/** The data that a buyer sends at checkout, and its normal form: what Validate returns is what the order's hash, the
    replay of a request and the stored rows are made of. */
module CheckoutRequest {
  import opened Text

  datatype Buyer = Buyer(name: string, email: string, phone: string, identity: string)
  datatype Attendees = Attendees(tier: string, names: seq<string>)
  datatype Request = Request(buyer: Buyer, voucher: string, attendees: seq<Attendees>)

  datatype Validated = Valid(request: Request) | InvalidRequest | InvalidVoucher

  // ---------------------------------------------------------------- text

  predicate Plain(s: string) {
    forall i :: 0 <= i < |s| ==> s[i] != ' ' && s[i] != '-'
  }

  /** A telephone number without its separators. */
  function Strip(s: string): (t: string)
    ensures Plain(t) && (Plain(s) ==> t == s)
  {
    if s == "" then ""
    else if s[0] == ' ' || s[0] == '-' then Strip(s[1..])
    else [s[0]] + Strip(s[1..])
  }

  method Digits(value: string) returns (r: bool)
    ensures r == AllDigits(value)
  {
    for i := 0 to |value|
      invariant AllDigits(value[..i])
    {
      if value[i] < '0' || value[i] > '9' {
        return false;
      }
    }
    return true;
  }

  function WithoutPlus(s: string): string {
    if s != "" && s[0] == '+' then s[1..] else s
  }

  /** There is a dot after the first at sign. */
  predicate HasDottedDomain(email: string)
    requires '@' in email
    decreases |email|
  {
    if email[0] == '@' then '.' in email[1..] else HasDottedDomain(email[1..])
  }

  /** ^[A-Z0-9][A-Z0-9_-]{1,31}$ */
  predicate ValidCode(s: string) {
    && 2 <= |s| <= 32
    && (forall i :: 0 <= i < |s| ==> 'A' <= s[i] <= 'Z' || '0' <= s[i] <= '9' || (i > 0 && (s[i] == '_' || s[i] == '-')))
  }

  // ---------------------------------------------------------------- the normal form

  /** mail.ParseAddress gives back exactly the text that it was given; such a text has an at sign. */
  ghost predicate ParsesAddresses(mailbox: string -> bool) {
    forall s: string :: mailbox(s) ==> '@' in s
  }

  predicate NameOk(name: string) {
    2 <= |name| <= 80
  }

  predicate NamesOk(attendees: seq<Attendees>) {
    forall i :: 0 <= i < |attendees| ==> forall j :: 0 <= j < |attendees[i].names| ==> NameOk(attendees[i].names[j])
  }

  predicate EmailOk(email: string, mailbox: string -> bool)
    requires mailbox(email) ==> '@' in email
  {
    Bytes(email) <= 254 && mailbox(email) && HasDottedDomain(email)
  }

  predicate PhoneOk(phone: string) {
    9 <= Bytes(WithoutPlus(phone)) <= 15 && AllDigits(WithoutPlus(phone))
  }

  predicate IdentityOk(identity: string) {
    identity == "" || (12 <= Bytes(identity) <= 20 && AllDigits(identity))
  }

  function TrimNames(names: seq<string>): seq<string> {
    seq(|names|, j requires 0 <= j < |names| => Trim(names[j]))
  }

  function TrimAttendees(attendees: seq<Attendees>): seq<Attendees> {
    seq(|attendees|, i requires 0 <= i < |attendees| => Attendees(Lower(Trim(attendees[i].tier)), TrimNames(attendees[i].names)))
  }

  function Cleaned(request: Request): Request {
    Request(
      Buyer(Trim(request.buyer.name), Trim(request.buyer.email), Strip(Trim(request.buyer.phone)), Trim(request.buyer.identity)),
      Upper(Trim(request.voucher)),
      TrimAttendees(request.attendees))
  }

  ghost function Normalized(request: Request, mailbox: string -> bool): Validated
    requires ParsesAddresses(mailbox)
  {
    var clean := Cleaned(request);
    if !(NamesOk(clean.attendees) && NameOk(clean.buyer.name) && EmailOk(clean.buyer.email, mailbox)
         && PhoneOk(clean.buyer.phone) && IdentityOk(clean.buyer.identity))
    then InvalidRequest
    else if clean.voucher != "" && !ValidCode(clean.voucher) then InvalidVoucher
    else Valid(clean)
  }

  /** The inner loop: the names of one tier, overwritten one by one. */
  method CleanNames(given: seq<string>) returns (ok: bool, names: seq<string>)
    ensures ok <==> forall j :: 0 <= j < |given| ==> NameOk(TrimNames(given)[j])
    ensures ok ==> names == TrimNames(given)
  {
    names := given;
    for j := 0 to |names|
      invariant |names| == |given|
      invariant forall k :: 0 <= k < |given| ==> names[k] == if k < j then Trim(given[k]) else given[k]
      invariant forall k :: 0 <= k < j ==> NameOk(names[k])
    {
      names := names[j := Trim(names[j])];
      if |names[j]| < 2 || |names[j]| > 80 {
        assert TrimNames(given)[j] == names[j];
        return false, names;
      }
    }
    return true, names;
  }

  /** The outer loop. */
  method CleanAttendees(given: seq<Attendees>) returns (ok: bool, attendees: seq<Attendees>)
    ensures ok <==> NamesOk(TrimAttendees(given))
    ensures ok ==> attendees == TrimAttendees(given)
  {
    ghost var clean := TrimAttendees(given);
    attendees := given;
    for i := 0 to |attendees|
      invariant |attendees| == |given|
      invariant forall k :: 0 <= k < |given| ==> attendees[k] == if k < i then clean[k] else given[k]
      invariant forall k :: 0 <= k < i ==> forall j :: 0 <= j < |clean[k].names| ==> NameOk(clean[k].names[j])
    {
      var good, names := CleanNames(attendees[i].names);
      assert clean[i].names == TrimNames(given[i].names);
      if !good { return false, attendees; }
      attendees := attendees[i := Attendees(Lower(Trim(attendees[i].tier)), names)];
    }
    return true, attendees;
  }

  method Validate(request: Request, mailbox: string -> bool) returns (r: Validated)
    requires ParsesAddresses(mailbox)
    ensures r == Normalized(request, mailbox)
  {
    var buyer := Buyer(Trim(request.buyer.name), Trim(request.buyer.email), Trim(request.buyer.phone), Trim(request.buyer.identity));
    var named, attendees := CleanAttendees(request.attendees);
    if !named {
      return InvalidRequest;
    }
    if |buyer.name| < 2 || |buyer.name| > 80 || Bytes(buyer.email) > 254 {
      return InvalidRequest;
    }
    if !mailbox(buyer.email) || !HasDottedDomain(buyer.email) {
      return InvalidRequest;
    }
    buyer := buyer.(phone := Strip(buyer.phone));
    var phone := WithoutPlus(buyer.phone);
    var phoneDigits := Digits(phone);
    var identityDigits := Digits(buyer.identity);
    if Bytes(phone) < 9 || Bytes(phone) > 15 || !phoneDigits
       || (buyer.identity != "" && (Bytes(buyer.identity) < 12 || Bytes(buyer.identity) > 20 || !identityDigits)) {
      return InvalidRequest;
    }
    var voucher := Upper(Trim(request.voucher));
    if voucher != "" && !ValidCode(voucher) {
      return InvalidVoucher;
    }
    return Valid(Request(buyer, voucher, attendees));
  }

  // ---------------------------------------------------------------- it is normal

  lemma PhoneIsTrimmed(phone: string)
    requires PhoneOk(phone)
    ensures Trimmed(phone)
  {
    var digits := WithoutPlus(phone);
    assert digits != "";
    assert digits[|digits| - 1] == phone[|phone| - 1];
  }

  lemma TrimAttendeesIsIdempotent(attendees: seq<Attendees>)
    ensures TrimAttendees(TrimAttendees(attendees)) == TrimAttendees(attendees)
  {
    var once := TrimAttendees(attendees);
    forall i | 0 <= i < |attendees| ensures TrimAttendees(once)[i] == once[i] {
      CaseIsIdempotent(Trim(attendees[i].tier));
      assert once[i].tier == Lower(Trim(attendees[i].tier));
      assert TrimNames(once[i].names) == once[i].names;
    }
  }

  /** What Validate accepts is a fixed point of it: the stored form of a request validates to itself, so a request and
      its stored form have the same hash. */
  lemma ValidateIsIdempotent(request: Request, mailbox: string -> bool)
    requires ParsesAddresses(mailbox) && Normalized(request, mailbox).Valid?
    ensures Normalized(Normalized(request, mailbox).request, mailbox) == Normalized(request, mailbox)
  {
    var clean := Cleaned(request);
    TrimAttendeesIsIdempotent(request.attendees);
    CaseIsIdempotent(Trim(request.voucher));
    PhoneIsTrimmed(clean.buyer.phone);
    assert Cleaned(clean) == clean;
  }
}
