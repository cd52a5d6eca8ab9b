/** Channel selection by user preference. */
module Preference {
  import opened Model

  datatype UserPreference = UserPreference(email: bool, sms: bool, push: bool)

  function Enabled(pref: Option<UserPreference>, c: Channel): bool {
    match c
    case Email => pref.None? || pref.value.email
    case Sms => pref.None? || pref.value.sms
    case Push => pref.None? || pref.value.push
    case Other(_) => true
  }

  /** The enabled ones of these channels, in order and with their repetitions. */
  function Keep(pref: Option<UserPreference>, cs: seq<Channel>): (r: seq<Channel>)
    ensures forall c :: c in r <==> c in cs && Enabled(pref, c)
  {
    if cs == [] then []
    else Keep(pref, cs[..|cs| - 1]) + if Enabled(pref, cs[|cs| - 1]) then [cs[|cs| - 1]] else []
  }

  /** No request, or an empty one, means every channel. */
  function Requested(requested: Option<seq<Channel>>): seq<Channel> {
    if requested.None? || requested.value == [] then [Email, Sms, Push] else requested.value
  }

  /** Order and repetitions are kept: each channel is kept or dropped by itself, by its own opt-out. */
  lemma {:induction false} KeepSplits(pref: Option<UserPreference>, a: seq<Channel>, b: seq<Channel>)
    ensures Keep(pref, a + b) == Keep(pref, a) + Keep(pref, b)
  {
    if b == [] {
      assert a + b == a;
    } else {
      var n := |b| - 1;
      assert (a + b)[..|a + b| - 1] == a + b[..n] && (a + b)[|a + b| - 1] == b[n];
      KeepSplits(pref, a, b[..n]);
    }
  }

  lemma KeepOne(pref: Option<UserPreference>, c: Channel)
    ensures var optedOut :=
              && pref.Some?
              && (|| (c == Email && !pref.value.email)
                  || (c == Sms && !pref.value.sms)
                  || (c == Push && !pref.value.push));
      Keep(pref, [c]) == if optedOut then [] else [c]
  {
    assert Keep(pref, [c][..0]) == [];
  }

  /** Without requested channels, the enabled ones in a fixed order. */
  lemma KeepAll(pref: Option<UserPreference>)
    ensures Keep(pref, [Email, Sms, Push]) ==
            (if pref.None? || pref.value.email then [Email] else []) +
            (if pref.None? || pref.value.sms then [Sms] else []) +
            (if pref.None? || pref.value.push then [Push] else [])
  {
    KeepSplits(pref, [Email, Sms], [Push]);
    KeepSplits(pref, [Email], [Sms]);
    assert [Email, Sms] + [Push] == [Email, Sms, Push] && [Email] + [Sms] == [Email, Sms];
    KeepOne(pref, Email);
    KeepOne(pref, Sms);
    KeepOne(pref, Push);
  }

  method KeepEnabled(pref: Option<UserPreference>, targets: seq<Channel>) returns (r: seq<Channel>)
    ensures r == Keep(pref, targets)
  {
    r := [];
    for i := 0 to |targets|
      invariant r == Keep(pref, targets[..i])
    {
      assert targets[..i + 1][..i] == targets[..i];
      if Enabled(pref, targets[i]) {
        r := r + [targets[i]];
      }
    }
    assert targets[..|targets|] == targets;
  }

  method FilterChannels(pref: Option<UserPreference>, requested: Option<seq<Channel>>) returns (r: seq<Channel>)
    ensures r == Keep(pref, Requested(requested))
    ensures var all := requested.None? || requested.value == [];
      && (Email in r <==> (all || Email in requested.value) && (pref.None? || pref.value.email))
      && (Sms in r <==> (all || Sms in requested.value) && (pref.None? || pref.value.sms))
      && (Push in r <==> (all || Push in requested.value) && (pref.None? || pref.value.push))
      && (all ==> r == (if pref.None? || pref.value.email then [Email] else []) +
                       (if pref.None? || pref.value.sms then [Sms] else []) +
                       (if pref.None? || pref.value.push then [Push] else []))
      && (!all ==> r == Keep(pref, requested.value))
  {
    KeepAll(pref);
    r := KeepEnabled(pref, if requested.None? || requested.value == [] then [Email, Sms, Push] else requested.value);
  }
}
