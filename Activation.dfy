/** Account activation (backend/controllers/activate-controller.js): check
    the two fields, strip a data-URL prefix from the avatar, name the stored
    image, process it, then update the signed-in user's record. Image
    decoding and resizing, the clock and the random number are parameters. */
module Activation {
  import opened Common
  import opened Server

  const PngPrefix: string := "data:image/png;base64,"
  const JpgPrefix: string := "data:image/jpg;base64,"
  const JpegPrefix: string := "data:image/jpeg;base64,"

  predicate StartsWith(s: string, prefix: string) {
    |prefix| <= |s| && s[..|prefix|] == prefix
  }

  predicate HasImagePrefix(s: string) {
    StartsWith(s, PngPrefix) || StartsWith(s, JpgPrefix) || StartsWith(s, JpegPrefix)
  }

  /** `avatar.replace(/^data:image\/(png|jpg|jpeg);base64,/, '')`. */
  function StripDataUrl(avatar: string): (r: string)
    ensures !HasImagePrefix(avatar) <==> r == avatar
    ensures HasImagePrefix(avatar) ==>
      (PngPrefix + r == avatar || JpgPrefix + r == avatar || JpegPrefix + r == avatar)
  {
    if StartsWith(avatar, PngPrefix) then
      assert PngPrefix + avatar[|PngPrefix|..] == avatar;
      avatar[|PngPrefix|..]
    else if StartsWith(avatar, JpgPrefix) then
      assert JpgPrefix + avatar[|JpgPrefix|..] == avatar;
      avatar[|JpgPrefix|..]
    else if StartsWith(avatar, JpegPrefix) then
      assert JpegPrefix + avatar[|JpegPrefix|..] == avatar;
      avatar[|JpegPrefix|..]
    else avatar
  }

  /** Exactly the payload after one of the three prefixes is kept. */
  lemma StripDataUrlOfPrefixed(payload: string)
    ensures StripDataUrl(PngPrefix + payload) == payload
    ensures StripDataUrl(JpgPrefix + payload) == payload
    ensures StripDataUrl(JpegPrefix + payload) == payload
  {
    assert (PngPrefix + payload)[..|PngPrefix|] == PngPrefix;
    assert (JpgPrefix + payload)[..|JpgPrefix|] == JpgPrefix;
    assert (JpegPrefix + payload)[..|JpegPrefix|] == JpegPrefix;
    // The jpeg prefix differs from the png one at 'p'/'j' and from the jpg one at 'g'/'e'.
    assert (JpegPrefix + payload)[11] == 'j' != PngPrefix[11];
    assert (JpegPrefix + payload)[13] == 'e' != JpgPrefix[13];
    assert (JpgPrefix + payload)[11] == 'j' != PngPrefix[11];
  }

  /** A data URL of another image type, or a prefix that does not start the
      string, is left whole. */
  lemma StripDataUrlLeavesOthers(head: string, payload: string)
    requires head != [] && head[0] != 'd'
    ensures StripDataUrl(head + PngPrefix + payload) == head + PngPrefix + payload
    ensures StripDataUrl(head + JpegPrefix + payload) == head + JpegPrefix + payload
    ensures StripDataUrl("data:image/gif;base64," + payload) == "data:image/gif;base64," + payload
  {
    assert (head + PngPrefix + payload)[0] == head[0];
    assert (head + JpegPrefix + payload)[0] == head[0];
    var gif := "data:image/gif;base64," + payload;
    assert gif[11] == 'g';
    assert !HasImagePrefix(gif) by {
      assert PngPrefix[11] == 'p' && JpgPrefix[11] == 'j' && JpegPrefix[11] == 'j';
    }
  }

  /** `${Date.now()}-${Math.round(Math.random() * 1e9)}.png`: whatever the
      avatar's type, the timestamp's digits, a dash, the number's digits and
      `.png`. */
  function ImagePath(timestamp: nat, random: nat): (p: string)
    ensures var n, m := |NatToString(timestamp)|, |NatToString(random)|;
      && |p| == n + 1 + m + 4
      && p[..n] == NatToString(timestamp) && IsDigits(p[..n])
      && p[n] == '-'
      && p[n + 1..n + 1 + m] == NatToString(random) && IsDigits(p[n + 1..n + 1 + m])
      && p[n + 1 + m..] == ".png"
  {
    NatToString(timestamp) + "-" + NatToString(random) + ".png"
  }

  /** Different timestamp–number pairs never share a file name. */
  lemma ImagePathInjective(t1: nat, r1: nat, t2: nat, r2: nat)
    requires ImagePath(t1, r1) == ImagePath(t2, r2)
    ensures t1 == t2 && r1 == r2
  {
    var a1, b1 := NatToString(t1), NatToString(r1);
    var a2, b2 := NatToString(t2), NatToString(r2);
    var tail1, tail2 := b1 + ".png", b2 + ".png";
    assert ImagePath(t1, r1) == a1 + ("-" + tail1);
    assert ImagePath(t2, r2) == a2 + ("-" + tail2);
    DigitPrefixEqual(a1, "-" + tail1, a2, "-" + tail2);
    NatToStringInjective(t1, t2);
    assert tail1 == ("-" + tail1)[1..] && tail2 == ("-" + tail2)[1..];
    DigitPrefixEqual(b1, ".png", b2, ".png");
    NatToStringInjective(r1, r2);
  }

  /** Two digit runs followed by a non-digit split the same string the same way. */
  lemma {:induction false} DigitPrefixEqual(a1: string, rest1: string, a2: string, rest2: string)
    requires IsDigits(a1) && IsDigits(a2)
    requires rest1 != [] && !IsDigit(rest1[0]) && rest2 != [] && !IsDigit(rest2[0])
    requires a1 + rest1 == a2 + rest2
    ensures a1 == a2 && rest1 == rest2
  {
    // The first character is a digit exactly when that run is non-empty.
    assert (a1 + rest1)[0] == if a1 == [] then rest1[0] else a1[0];
    assert (a2 + rest2)[0] == if a2 == [] then rest2[0] else a2[0];
    if a1 == [] && a2 == [] {
      assert a1 + rest1 == rest1 && a2 + rest2 == rest2;
    } else if a1 == [] || a2 == [] {
      assert false;
    } else {
      assert (a1 + rest1)[0] == a1[0] && (a2 + rest2)[0] == a2[0];
      assert (a1 + rest1)[1..] == a1[1..] + rest1;
      assert (a2 + rest2)[1..] == a2[1..] + rest2;
      DigitPrefixEqual(a1[1..], rest1, a2[1..], rest2);
      assert a1 == [a1[0]] + a1[1..];
      assert a2 == [a2[0]] + a2[1..];
    }
  }

  /** `activate`. `userId` is the id the auth middleware put on `req.user`;
      `readImage` says whether Jimp can read the decoded payload; `dbFails`
      says whether `findUser` or `save` throws. The second result is the
      file name the image is written under, if it is written. */
  method Activate(store: UserStore, name: Option<string>, avatar: Option<string>, userId: nat,
                  now: nat, random: nat, readImage: string -> bool, dbFails: bool)
    returns (reply: Reply, written: Option<string>)
    requires store.Valid()
    modifies store
    ensures store.Valid()
    ensures !(Present(name) && Present(avatar)) ==>
      reply == Json(400, Message("All fields are required!")) && written == None && store.users == old(store.users)
    ensures Present(name) && Present(avatar) && !readImage(StripDataUrl(avatar.value)) ==>
      reply == Json(500, Message("Could not process the image")) && written == None && store.users == old(store.users)
    ensures Present(name) && Present(avatar) && readImage(StripDataUrl(avatar.value)) ==>
      && written == Some(ImagePath(now, random))
      && (dbFails ==> reply == Json(500, Message("Something went wrong!")) && store.users == old(store.users))
      && (!dbFails && userId >= |old(store.users)| ==>
            reply == Json(404, Message("User not found!")) && store.users == old(store.users))
      && (!dbFails && userId < |old(store.users)| ==>
            var updated := old(store.users)[userId].(activated := true, name := name,
                                                      avatar := Some("/storage/" + written.value));
            && store.users == old(store.users)[userId := updated]
            && reply == Json(200, ActivatedUser(updated, true)))
  {
    written := None;
    if !Present(name) || !Present(avatar) {
      return Json(400, Message("All fields are required!")), written;
    }
    var payload := StripDataUrl(avatar.value);
    var imagePath := ImagePath(now, random);
    if !readImage(payload) {
      return Json(500, Message("Could not process the image")), written;
    }
    written := Some(imagePath);
    if dbFails {
      return Json(500, Message("Something went wrong!")), written;
    }
    var found := store.FindById(userId);
    if found.None? {
      return Json(404, Message("User not found!")), written;
    }
    var user := found.value;
    user := user.(activated := true);
    user := user.(name := name);
    user := user.(avatar := Some("/storage/" + imagePath));
    store.Save(user);
    reply := Json(200, ActivatedUser(user, true));
  }
}
