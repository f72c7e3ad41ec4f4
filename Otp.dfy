/** One-time-password sign-in (backend/controllers/auth-controller.js).
    `sendOtp` returns the envelope `hash.expires`, where `hash` signs the
    string `phone.otp.expires`; `verifyOtp` splits the envelope, checks the
    fields, the expiry and the signature in that order, then finds or creates
    the user. The OTP generator, the hash, the signature check and the clock
    are parameters. */
module Otp {
  import opened Common
  import opened Server

  /** Two minutes, in milliseconds. */
  const OtpTtl: nat := 1000 * 60 * 2
  /** Thirty days, in milliseconds. */
  const RefreshCookieMaxAge: nat := 1000 * 60 * 60 * 24 * 30

  /** `${field}` of a request field that may be undefined. */
  function Interpolate(field: Option<string>): (r: string)
    ensures field.Some? ==> r == field.value
    ensures field.None? ==> r == "undefined"
  {
    if field.Some? then field.value else "undefined"
  }

  /** The signed string `${phone}.${otp}.${expires}`, built the same way by both handlers. */
  function SignedData(phone: string, otp: string, expires: string): (r: string)
    ensures |r| == |phone| + |otp| + |expires| + 2
    ensures r[..|phone|] == phone && r[|phone|] == '.'
    ensures r[|phone| + 1..|phone| + 1 + |otp|] == otp && r[|phone| + 1 + |otp|] == '.'
    ensures r[|phone| + |otp| + 2..] == expires
  {
    phone + "." + otp + "." + expires
  }

  /** The signed string splits back into phone, OTP and expiry when the
      first two contain no dot. */
  lemma SignedDataRoundTrip(phone: string, otp: string, expires: string)
    requires '.' !in phone && '.' !in otp
    ensures Split(SignedData(phone, otp, expires), '.') == [phone, otp] + Split(expires, '.')
  {
    assert SignedData(phone, otp, expires) == phone + ['.'] + (otp + ['.'] + expires);
    SplitAtFirstSeparator(phone, '.', otp + ['.'] + expires);
    SplitAtFirstSeparator(otp, '.', expires);
  }

  /** `${hash}.${expires}`. */
  function Envelope(hash: string, expires: nat): (r: string)
    ensures |r| > |hash| + 1 && r[..|hash|] == hash && r[|hash|] == '.'
    ensures r[|hash| + 1..] == NatToString(expires) && IsDigits(r[|hash| + 1..])
  {
    hash + "." + NatToString(expires)
  }

  /** `const [hashedOtp, expires] = hash.split(".")`: a missing second part is undefined. */
  function SplitEnvelope(envelope: string): (r: (string, Option<string>))
    ensures '.' !in r.0
    ensures r.1.None? <==> '.' !in envelope
    ensures r.1.None? ==> r.0 == envelope
    ensures r.1.Some? ==> '.' !in r.1.value && r.0 + "." + r.1.value <= envelope
  {
    var parts := Split(envelope, '.');
    SplitFirstTwo(envelope, '.');
    (parts[0], if |parts| > 1 then Some(parts[1]) else None)
  }

  /** For a hash without a dot, splitting the envelope gives back the hash
      and the rendered expiry. */
  lemma EnvelopeRoundTrip(hash: string, expires: nat)
    requires '.' !in hash
    ensures SplitEnvelope(Envelope(hash, expires)) == (hash, Some(NatToString(expires)))
  {
    var digits := NatToString(expires);
    assert Envelope(hash, expires) == hash + ['.'] + digits;
    SplitAtFirstSeparator(hash, '.', digits);
    assert '.' !in digits by {
      DigitsHaveNoSeparator(digits, '.');
    }
    SplitWithoutSeparator(digits, '.');
  }

  /** `Date.now() > +expires`; `+undefined` and a non-numeric string are NaN,
      and no comparison with NaN holds. */
  function Expired(now: nat, expires: Option<string>): (b: bool)
    ensures b ==> expires.Some? && IsDigits(expires.value) && now > 0
  {
    expires.Some? && ToNumber(expires.value).Some? && now > ToNumber(expires.value).value
  }

  /** An expiry rendered by `sendOtp` is passed exactly when the clock is
      later than it: at `now == expires` the OTP is still accepted. */
  lemma ExpiryBoundary(now: nat, expires: nat)
    ensures Expired(now, Some(NatToString(expires))) <==> now > expires
  {
    ToNumberOfNatToString(expires);
  }

  /** An envelope whose second part holds a character no number is written
      with is NaN, so it never expires, however late the clock. */
  lemma NonNumericExpiryNeverExpires(now: nat, expires: string, k: nat)
    requires k < |expires| && NeverNumeric(expires[k])
    ensures !Expired(now, Some(expires))
  {
    assert !IsDigit(expires[k]);
  }

  /** `sendOtp`. `otp` is what `generateOtp()` resolves to and `hashOtp` is
      `hashService.hashOtp`. The result lists each reply the handler writes,
      in order, with the status in force when it is written; Express delivers
      only the first and refuses the others by throwing. `escapes` says
      whether a throw leaves the handler, so that its promise rejects. */
  method SendOtp(phone: Option<string>, otp: string, now: nat, hashOtp: string -> string)
    returns (writes: seq<Reply>, escapes: bool)
    ensures escapes <==> !Present(phone)
    ensures var expires := now + OtpTtl;
      var payload := OtpSent(Envelope(hashOtp(SignedData(Interpolate(phone), otp, NatToString(expires))), expires), phone, otp);
      writes == if Present(phone) then [Json(200, payload)]
                else [Json(400, Message("Phone field is required!")), Json(400, payload),
                      Json(500, Message("message sending failed"))]
  {
    writes := [];
    var status := 200;
    if !Present(phone) {
      status := 400;
      writes := writes + [Json(status, Message("Phone field is required!"))];
    }
    var expires := now + OtpTtl;
    var data := SignedData(Interpolate(phone), otp, NatToString(expires));
    var hash := hashOtp(data);
    // `res.json` keeps the status `res.status(400)` set and throws once a
    // reply has gone out; the catch block's write throws the same way, and
    // nothing catches that second throw.
    var headersSent := |writes| > 0;
    writes := writes + [Json(status, OtpSent(Envelope(hash, expires), phone, otp))];
    escapes := false;
    if headersSent {
      writes := writes + [Json(500, Message("message sending failed"))];
      escapes := true;
    }
  }

  /** `sendOtp` with `return` before the 400 reply, as the other guards of
      both controllers have it: a request without a phone gets exactly that
      reply and no OTP is signed for it. */
  method SendOtpGuarded(phone: Option<string>, otp: string, now: nat, hashOtp: string -> string) returns (writes: seq<Reply>)
    ensures |writes| == 1
    ensures !Present(phone) <==> writes[0] == Json(400, Message("Phone field is required!"))
    ensures Present(phone) ==> var expires := now + OtpTtl;
      writes[0] == Json(200, OtpSent(Envelope(hashOtp(SignedData(phone.value, otp, NatToString(expires))), expires), phone, otp))
  {
    if !Present(phone) {
      return [Json(400, Message("Phone field is required!"))];
    }
    var expires := now + OtpTtl;
    var hash := hashOtp(SignedData(phone.value, otp, NatToString(expires)));
    writes := [Json(200, OtpSent(Envelope(hash, expires), phone, otp))];
  }

  datatype VerifyRequest = VerifyRequest(otp: Option<string>, hash: Option<string>, phone: Option<string>)

  datatype Rejection = FieldsMissing | OtpExpired | OtpInvalid

  /** The message of each refusal; the message tells which check refused. */
  function RejectionMessage(rej: Rejection): (m: string)
    ensures m == "All fields are required!" <==> rej == FieldsMissing
    ensures m == "OTP expired!" <==> rej == OtpExpired
    ensures m == "Invalid OTP!" <==> rej == OtpInvalid
  {
    match rej
    case FieldsMissing => "All fields are required!"
    case OtpExpired => "OTP expired!"
    case OtpInvalid => "Invalid OTP!"
  }

  predicate AllFields(req: VerifyRequest) {
    Present(req.otp) && Present(req.hash) && Present(req.phone)
  }

  /** The string `verifyOtp` checks the hashed OTP against. */
  function VerifiedData(req: VerifyRequest): (r: string)
    requires AllFields(req)
    ensures var phone, otp, expires := req.phone.value, req.otp.value, SplitEnvelope(req.hash.value).1;
      && |r| >= |phone| + |otp| + 2
      && r[..|phone|] == phone && r[|phone|] == '.'
      && r[|phone| + 1..|phone| + 1 + |otp|] == otp && r[|phone| + 1 + |otp|] == '.'
      && (expires.Some? ==> r[|phone| + |otp| + 2..] == expires.value)
      && (expires.None? ==> r[|phone| + |otp| + 2..] == "undefined")
  {
    SignedData(req.phone.value, req.otp.value, Interpolate(SplitEnvelope(req.hash.value).1))
  }

  /** The guard checks of `verifyOtp`, in order: fields, expiry, signature.
      `isValid` is `otpService.verifyOtp`. */
  function CheckOtp(req: VerifyRequest, now: nat, isValid: (string, string) -> bool): (r: Option<Rejection>)
    ensures r == Some(FieldsMissing) <==> !AllFields(req)
    ensures r == Some(OtpExpired) <==> AllFields(req) && Expired(now, SplitEnvelope(req.hash.value).1)
    ensures r == Some(OtpInvalid) <==>
      AllFields(req) && !Expired(now, SplitEnvelope(req.hash.value).1)
      && !isValid(SplitEnvelope(req.hash.value).0, VerifiedData(req))
    ensures r == None ==>
      AllFields(req) && !Expired(now, SplitEnvelope(req.hash.value).1)
      && isValid(SplitEnvelope(req.hash.value).0, VerifiedData(req))
  {
    if !AllFields(req) then Some(FieldsMissing)
    else
      var (hashedOtp, expires) := SplitEnvelope(req.hash.value);
      if Expired(now, expires) then Some(OtpExpired)
      else if !isValid(hashedOtp, VerifiedData(req)) then Some(OtpInvalid)
      else None
  }

  /** The field check comes first: a request missing a field is refused the
      same way whatever the clock and the signature check say. */
  lemma MissingFieldRefusedFirst(req: VerifyRequest, now: nat, isValid: (string, string) -> bool,
                                 now': nat, isValid': (string, string) -> bool)
    requires !AllFields(req)
    ensures CheckOtp(req, now, isValid) == CheckOtp(req, now', isValid') == Some(FieldsMissing)
  {
  }

  /** An OTP sent by `sendOtp` and presented back unchanged, no later than
      its expiry, passes every check when the signature check recomputes
      the hash. */
  lemma SentOtpVerifies(phone: string, otp: string, sentAt: nat, now: nat, hashOtp: string -> string,
                        isValid: (string, string) -> bool)
    requires phone != "" && otp != ""
    requires '.' !in hashOtp(SignedData(phone, otp, NatToString(sentAt + OtpTtl)))
    requires forall h, d :: isValid(h, d) <==> hashOtp(d) == h
    requires now <= sentAt + OtpTtl
    ensures var expires := sentAt + OtpTtl;
      var envelope := Envelope(hashOtp(SignedData(phone, otp, NatToString(expires))), expires);
      CheckOtp(VerifyRequest(Some(otp), Some(envelope), Some(phone)), now, isValid) == None
  {
    var expires := sentAt + OtpTtl;
    var hash := hashOtp(SignedData(phone, otp, NatToString(expires)));
    var envelope := Envelope(hash, expires);
    EnvelopeRoundTrip(hash, expires);
    ExpiryBoundary(now, expires);
    assert envelope != "";
    var req := VerifyRequest(Some(otp), Some(envelope), Some(phone));
    assert VerifiedData(req) == SignedData(phone, otp, NatToString(expires));
  }

  /** `verifyOtp`. `dbFails` says whether `findUser` or `createUser` throws. */
  method VerifyOtp(store: UserStore, req: VerifyRequest, now: nat, isValid: (string, string) -> bool, dbFails: bool)
    returns (reply: Reply)
    requires store.Valid()
    modifies store
    ensures store.Valid()
    ensures CheckOtp(req, now, isValid).Some? ==>
      reply == Json(500, Message(RejectionMessage(CheckOtp(req, now, isValid).value))) && store.users == old(store.users)
    ensures CheckOtp(req, now, isValid).None? && dbFails ==>
      reply == Json(500, Message("DB error")) && store.users == old(store.users)
    ensures CheckOtp(req, now, isValid).None? && !dbFails ==>
      var phone := req.phone.value;
      && reply.status == 200 && reply.body.Authenticated?
      && reply.cookie == Some(Cookie("refreshtoken", RefreshCookieMaxAge, true))
      && reply.body.user in store.users && reply.body.user.phone == phone
      && reply.body.tokensFor == Claims(reply.body.user.id, false)
      && ((exists i :: 0 <= i < |old(store.users)| && old(store.users)[i].phone == phone) ==>
            store.users == old(store.users))
      && ((forall i :: 0 <= i < |old(store.users)| ==> old(store.users)[i].phone != phone) ==>
            store.users == old(store.users) + [User(|old(store.users)|, phone, None, None, false)])
  {
    if !Present(req.otp) || !Present(req.hash) || !Present(req.phone) {
      return Json(500, Message("All fields are required!"));
    }
    var (hashedOtp, expires) := SplitEnvelope(req.hash.value);
    if Expired(now, expires) {
      return Json(500, Message("OTP expired!"));
    }
    var data := SignedData(req.phone.value, req.otp.value, Interpolate(expires));
    if !isValid(hashedOtp, data) {
      return Json(500, Message("Invalid OTP!"));
    }
    if dbFails {
      return Json(500, Message("DB error"));
    }
    var user := store.FindByPhone(req.phone.value);
    if user.None? {
      var created := store.Create(req.phone.value);
      user := Some(created);
    }
    reply := Reply(200, Authenticated(Claims(user.value.id, false), user.value),
                   Some(Cookie("refreshtoken", RefreshCookieMaxAge, true)));
  }
}
