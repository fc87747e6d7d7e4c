/**
 * The identity store (`useUserProfile`): the local user's profile, created
 * once and persisted under one storage key, and re-encoded as a contact card
 * whenever its display name changes.
 *
 * The clock (`Date.now()`), the random id suffix, the key pair and the QR
 * renderer (`QRCode.toDataURL`) are parameters; a failing storage read,
 * renderer or storage write is a boolean or a `None` result.
 */
module Identity {
  import opened Wrappers
  import opened Text
  import opened Json
  import opened ContactCard

  const ProfileKey: string := "saxiib_user_profile"

  datatype Profile = Profile(id: string, name: string, publicKey: string, secretKey: string, qrCode: string)

  datatype KeyPair = KeyPair(publicKey: string, secretKey: string)

  /** `s.substring(0, n)`: the first `n` characters, or all of `s` when it is shorter. */
  function Substring(s: string, n: nat): (r: string)
    ensures |r| == if n < |s| then n else |s|
    ensures r == s[..|r|]
  {
    if n < |s| then s[..n] else s
  }

  /** `user_${Date.now()}_${suffix}`, where `suffix` stands for the random base-36 digits. */
  function NewId(now: nat, suffix: string): string {
    "user_" + Decimal(now) + "_" + suffix
  }

  /** `User_${id.substring(0, 8)}` */
  function DefaultName(id: string): string {
    "User_" + Substring(id, 8)
  }

  /** The record built for a first-time user, before its QR code is rendered. */
  function NewProfile(now: nat, suffix: string, keys: KeyPair): Profile {
    var id := NewId(now, suffix);
    Profile(id, DefaultName(id), keys.publicKey, keys.secretKey, "")
  }

  /** The public fields that go into the QR code. */
  function PublicCard(p: Profile): Card {
    Card(p.id, p.name, p.publicKey)
  }

  /** The text handed to the QR renderer: the profile's contact card and nothing else. */
  function QrPayload(p: Profile): (text: string)
    ensures Parse(text) == Some(CardObject(PublicCard(p)))
  {
    Encode(PublicCard(p))
  }

  /** A new id starts with `user_` and the default name is `User_` and the id's first 8 characters. */
  lemma NewProfileShape(now: nat, suffix: string, keys: KeyPair)
    ensures var p := NewProfile(now, suffix, keys);
            |p.id| >= 7 && p.id[..5] == "user_"
            && p.name == "User_" + Substring(p.id, 8)
            && p.publicKey == keys.publicKey && p.secretKey == keys.secretKey
  {
    var id := NewId(now, suffix);
    assert id == "user_" + (Decimal(now) + "_" + suffix);
  }

  /**
   * From 100 ms after the epoch on, the default name is `User_user_` followed by
   * the first three digits of the creation time: it does not depend on the
   * random suffix, so it tells apart only users created far apart in time.
   */
  lemma DefaultNameIgnoresSuffix(now: nat, suffix: string, keys: KeyPair)
    requires now >= 100
    ensures |Decimal(now)| >= 3
    ensures NewProfile(now, suffix, keys).name == "User_user_" + Decimal(now)[..3]
  {
    DecimalLength(now);
    var id := NewId(now, suffix);
    assert id == "user_" + Decimal(now) + "_" + suffix;
    assert id[..8] == "user_" + Decimal(now)[..3];
  }

  /** The QR payload holds the id, name and public key, and no `secretKey` member. */
  lemma PayloadHasNoSecret(p: Profile)
    ensures Parse(QrPayload(p)) == Some(CardObject(PublicCard(p)))
    ensures Property(CardObject(PublicCard(p)), "secretKey") == None
    ensures forall secret, qr :: QrPayload(p.(secretKey := secret, qrCode := qr)) == QrPayload(p)
  {
  }

  /**
   * A profile's payload scans back exactly when its id, name and public key
   * are all non-empty, and then gives back its id.
   */
  lemma PayloadScansBack(p: Profile)
    ensures Decode(QrPayload(p)).Accepted? <==> p.id != "" && p.name != "" && p.publicKey != ""
    ensures Decode(QrPayload(p)).Accepted? ==> Property(Decode(QrPayload(p)).data, "id") == Some(JString(p.id))
  {
    EncodedCardAccepted(PublicCard(p));
    if p.id != "" && p.name != "" && p.publicKey != "" {
      DecodeEncode(PublicCard(p));
    }
  }

  class IdentityStore {
    /** The `profile` state of the hook. */
    var profile: Option<Profile>
    /** The durable key-value store, as far as this hook reads and writes it. */
    var store: map<string, Profile>

    /** The profile in memory is the one in the store: the store is always written first. */
    ghost predicate Persisted()
      reads this
    {
      profile.Some? ==> ProfileKey in store && store[ProfileKey] == profile.value
    }

    constructor (stored: map<string, Profile>)
      ensures profile == None && store == stored
      ensures Persisted()
    {
      profile := None;
      store := stored;
    }

    /**
     * Load-or-create. A stored profile is taken as it is, without any write;
     * otherwise a new one is built, given its QR code, written, and only then
     * set. A failing read, render or write leaves both the store and the
     * profile as they were.
     */
    method LoadProfile(readOk: bool, now: nat, suffix: string, keys: KeyPair,
                       render: string -> Option<string>, writeOk: bool)
      modifies this
      ensures old(Persisted()) ==> Persisted()
      ensures !readOk ==> profile == old(profile) && store == old(store)
      ensures readOk && ProfileKey in old(store) ==>
                profile == Some(old(store)[ProfileKey]) && store == old(store)
      ensures readOk && ProfileKey !in old(store) ==>
                var made := NewProfile(now, suffix, keys);
                var qr := render(QrPayload(made));
                if qr.Some? && writeOk then
                  var created := made.(qrCode := qr.value);
                  store == old(store)[ProfileKey := created] && profile == Some(created)
                else
                  store == old(store) && profile == old(profile)
    {
      if !readOk {
        return;
      }
      if ProfileKey in store {
        profile := Some(store[ProfileKey]);
        return;
      }
      var created := NewProfile(now, suffix, keys);
      var qr := render(QrPayload(created));
      if qr.None? {
        return;
      }
      created := created.(qrCode := qr.value);
      if !writeOk {
        return;
      }
      store := store[ProfileKey := created];
      profile := Some(created);
    }

    /**
     * Rename the user. Nothing happens without a profile. Otherwise only
     * `name` and the QR code derived from it change; the record is written
     * before it replaces the profile in memory.
     */
    method UpdateProfile(name: string, render: string -> Option<string>, writeOk: bool)
      modifies this
      ensures old(Persisted()) ==> Persisted()
      ensures old(profile).None? ==> profile == old(profile) && store == old(store)
      ensures old(profile).Some? ==>
                var renamed := old(profile).value.(name := name);
                var qr := render(QrPayload(renamed));
                if qr.Some? && writeOk then
                  var updated := renamed.(qrCode := qr.value);
                  store == old(store)[ProfileKey := updated] && profile == Some(updated)
                else
                  store == old(store) && profile == old(profile)
      ensures profile.Some? && old(profile).Some? ==>
                profile.value.id == old(profile).value.id
                && profile.value.publicKey == old(profile).value.publicKey
                && profile.value.secretKey == old(profile).value.secretKey
    {
      if profile.None? {
        return;
      }
      var updated := profile.value.(name := name);
      var qr := render(QrPayload(updated));
      if qr.None? {
        return;
      }
      updated := updated.(qrCode := qr.value);
      if !writeOk {
        return;
      }
      store := store[ProfileKey := updated];
      profile := Some(updated);
    }
  }

  /**
   * A fresh install loads twice (two mounts of the hook over the same
   * storage): the first load creates and persists a profile, the second one
   * finds it, so both see the same identity whatever the second clock, suffix
   * and key pair would have produced.
   */
  method LoadTwiceOnFreshStore(now1: nat, suffix1: string, keys1: KeyPair,
                               now2: nat, suffix2: string, keys2: KeyPair,
                               render: string -> Option<string>)
    returns (first: Option<Profile>, second: Option<Profile>)
    requires render(QrPayload(NewProfile(now1, suffix1, keys1))).Some?
    ensures first.Some? && second == first
    ensures first.value.id == NewId(now1, suffix1)
  {
    var mount1 := new IdentityStore(map[]);
    mount1.LoadProfile(true, now1, suffix1, keys1, render, true);
    first := mount1.profile;
    var mount2 := new IdentityStore(mount1.store);
    mount2.LoadProfile(true, now2, suffix2, keys2, render, true);
    second := mount2.profile;
  }
}
