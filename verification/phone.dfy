/** Phone-number normalisation, identical in both generations of the session store and bot
    (src/storage/sessions.py, src/bot/bot.py and their legacy copies). */
module Phone {
  import opened Text

  const WhatsAppPrefix := "whatsapp:"

  /** Deleting every occurrence of a pattern only ever removes characters. */
  lemma {:induction false} ReplaceByEmptyKeepsChars(s: string, p: string)
    requires |p| > 0
    ensures forall x :: x in Replace(s, p, "") ==> x in s
    decreases |s|
  {
    if |s| >= |p| {
      if s[..|p|] == p {
        ReplaceByEmptyKeepsChars(s[|p|..], p);
        assert forall x :: x in s[|p|..] ==> x in s;
      } else {
        ReplaceByEmptyKeepsChars(s[1..], p);
        assert forall x :: x in s[1..] ==> x in s;
      }
    }
  }

  /** `_normalize_phone_number`: drop every `whatsapp:` and every `+`, then put one `+` in
      front. The `startswith('+')` test can never succeed after the `+` are gone, so the
      result always has exactly one `+`, at its head, and no character the input lacked. */
  function Normalize(raw: string): (r: string)
    ensures |r| >= 1 && r[0] == '+'
    ensures '+' !in r[1..]
    ensures forall c :: c in r[1..] ==> c in raw
  {
    var noPrefix := Replace(raw, WhatsAppPrefix, "");
    var n := Replace(noPrefix, "+", "");
    ReplaceCharRemoves(noPrefix, '+');
    ReplaceByEmptyKeepsChars(raw, WhatsAppPrefix);
    if StartsWith(n, "+") then n else "+" + n
  }

  /** A number that carries neither `+` nor `whatsapp:` keeps every character, in order,
      behind the one `+` in front. */
  lemma NormalizePlain(x: string)
    requires '+' !in x && !Contains(x, WhatsAppPrefix)
    ensures Normalize(x) == "+" + x
  {
    ReplaceAbsent(x, WhatsAppPrefix, "");
    NotContainsByFirstChar(x, "+");
    ReplaceAbsent(x, "+", "");
  }

  /** A leading `+` makes no difference to the key. */
  lemma NormalizeDropsPlus(x: string)
    ensures Normalize("+" + x) == Normalize(x)
  {
    var px := "+" + x;
    assert px[1..] == x;
    if |px| >= |WhatsAppPrefix| {
      assert px[..|WhatsAppPrefix|][0] == '+';
    }
    assert Replace(px, WhatsAppPrefix, "") == "+" + Replace(x, WhatsAppPrefix, "") by {
      if |px| < |WhatsAppPrefix| {
        assert Replace(x, WhatsAppPrefix, "") == x;
      }
    }
    var y := Replace(x, WhatsAppPrefix, "");
    assert ("+" + y)[..1] == "+" && ("+" + y)[1..] == y;
  }

  /** A leading `whatsapp:` makes no difference to the key. */
  lemma NormalizeDropsPrefix(x: string)
    ensures Normalize(WhatsAppPrefix + x) == Normalize(x)
  {
    var wx := WhatsAppPrefix + x;
    assert wx[..|WhatsAppPrefix|] == WhatsAppPrefix && wx[|WhatsAppPrefix|..] == x;
    assert Replace(wx, WhatsAppPrefix, "") == Replace(x, WhatsAppPrefix, "") by {
      assert Replace(wx, WhatsAppPrefix, "") == "" + Replace(x, WhatsAppPrefix, "");
    }
  }

  /** `_generate_agent_id`: the phone number with `+` and `whatsapp:` removed. */
  function AgentIdOf(phone: string): (a: string)
    ensures '+' !in a
  {
    var noPlus := Replace(phone, "+", "");
    ReplaceCharRemoves(phone, '+');
    ReplaceByEmptyKeepsChars(noPlus, WhatsAppPrefix);
    Replace(noPlus, WhatsAppPrefix, "")
  }

  predicate AllDigits(d: string)
  {
    forall i :: 0 <= i < |d| ==> IsDigit(d[i])
  }

  /** The three forms the transport delivers for a number with digits `d` all normalise to
      `+d`, and the agent id minted from that key is `d` itself. */
  lemma NormalizeForms(d: string)
    requires AllDigits(d)
    ensures Normalize(d) == "+" + d
    ensures Normalize("+" + d) == "+" + d
    ensures Normalize(WhatsAppPrefix + "+" + d) == "+" + d
    ensures AgentIdOf("+" + d) == d
  {
    var pd := "+" + d;
    NotContainsByFirstChar(d, WhatsAppPrefix);
    NotContainsByFirstChar(pd, WhatsAppPrefix);
    NotContainsByFirstChar(d, "+");
    ReplaceAbsent(d, WhatsAppPrefix, "");
    ReplaceAbsent(pd, WhatsAppPrefix, "");
    ReplaceAbsent(d, "+", "");
    assert Replace(pd, "+", "") == Replace(d, "+", "") by {
      assert pd[..1] == "+" && pd[1..] == d;
    }
    var wd := WhatsAppPrefix + "+" + d;
    assert Replace(wd, WhatsAppPrefix, "") == pd by {
      assert wd[..|WhatsAppPrefix|] == WhatsAppPrefix && wd[|WhatsAppPrefix|..] == pd;
    }
  }
}
