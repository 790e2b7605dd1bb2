/** `generateProviderKey` of main.ts: a prefix followed by the first ten
    characters of a random UUID with its hyphens removed. The UUID is an
    input here; `crypto.randomUUID` itself is not modelled. */
module ProviderKeys {

  const InvoiceKeyPrefix := "p_ik_"
  const AdminKeyPrefix := "p_ak_"
  /** Characters kept from the UUID: `.slice(0, 10)`. */
  const KeyBodyLength := 10

  predicate HasPrefix(s: string, prefix: string)
  {
    |s| >= |prefix| && s[..|prefix|] == prefix
  }

  /** `s.replace(/-/g, "")`. */
  function RemoveHyphens(s: string): (r: string)
    ensures '-' !in r && |r| <= |s|
  {
    if s == [] then []
    else (if s[0] == '-' then [] else [s[0]]) + RemoveHyphens(s[1..])
  }

  /** `prefix + uuid.replace(/-/g, "").slice(0, 10)`; `slice` keeps the
      whole string when it is shorter than ten characters. */
  function GenerateProviderKey(prefix: string, uuid: string): (key: string)
    ensures HasPrefix(key, prefix)
    ensures |key| - |prefix| <= KeyBodyLength && '-' !in key[|prefix|..]
    ensures |RemoveHyphens(uuid)| >= KeyBodyLength ==> |key| == |prefix| + KeyBodyLength
  {
    var compact := RemoveHyphens(uuid);
    var body := if |compact| <= KeyBodyLength then compact else compact[..KeyBodyLength];
    assert (prefix + body)[|prefix|..] == body;
    prefix + body
  }

  predicate IsHexDigit(c: char)
  {
    '0' <= c <= '9' || 'a' <= c <= 'f'
  }

  /** The text form `crypto.randomUUID` returns: 8-4-4-4-12 lower-case
      hexadecimal digits separated by hyphens. */
  predicate IsUuid(u: string)
  {
    |u| == 36 &&
    forall i :: 0 <= i < 36 ==>
      if i == 8 || i == 13 || i == 18 || i == 23 then u[i] == '-' else IsHexDigit(u[i])
  }

  lemma {:induction false} RemoveHyphensAppend(a: string, b: string)
    ensures RemoveHyphens(a + b) == RemoveHyphens(a) + RemoveHyphens(b)
  {
    if a == [] {
      assert a + b == b;
    } else {
      assert (a + b)[1..] == a[1..] + b;
      RemoveHyphensAppend(a[1..], b);
    }
  }

  lemma {:induction false} RemoveHyphensKeeps(s: string)
    requires '-' !in s
    ensures RemoveHyphens(s) == s
  {
    if s != [] {
      assert s[0] in s;
      assert '-' !in s[1..] by { assert forall c :: c in s[1..] ==> c in s; }
      RemoveHyphensKeeps(s[1..]);
    }
  }

  /** For a well-formed UUID the key is the prefix, the first group of
      eight digits and the first two digits of the second group: ten
      hexadecimal digits in all. */
  lemma UuidKeyShape(prefix: string, uuid: string)
    requires IsUuid(uuid)
    ensures GenerateProviderKey(prefix, uuid) == prefix + uuid[..8] + uuid[9..11]
    ensures |GenerateProviderKey(prefix, uuid)| == |prefix| + KeyBodyLength
    ensures forall i :: |prefix| <= i < |prefix| + KeyBodyLength ==>
      IsHexDigit(GenerateProviderKey(prefix, uuid)[i])
  {
    var head, first, dash, second := uuid[..11], uuid[..8], uuid[8..9], uuid[9..11];
    assert uuid == head + uuid[11..];
    assert head == first + dash + second;
    assert dash == ['-'];
    assert '-' !in first by {
      forall i | 0 <= i < 8 ensures first[i] != '-' { assert IsHexDigit(uuid[i]); }
    }
    assert '-' !in second by {
      forall i | 0 <= i < 2 ensures second[i] != '-' { assert IsHexDigit(uuid[9 + i]); }
    }
    RemoveHyphensAppend(head, uuid[11..]);
    RemoveHyphensAppend(first + dash, second);
    RemoveHyphensAppend(first, dash);
    RemoveHyphensKeeps(first);
    RemoveHyphensKeeps(second);
    var compact := RemoveHyphens(uuid);
    assert compact[..KeyBodyLength] == first + second;
    forall i | |prefix| <= i < |prefix| + KeyBodyLength
      ensures IsHexDigit(GenerateProviderKey(prefix, uuid)[i])
    {
      var j := i - |prefix|;
      if j < 8 { assert IsHexDigit(uuid[j]); } else { assert IsHexDigit(uuid[j + 1]); }
    }
  }

  /** An invoice key never equals an admin key, whatever UUIDs they come
      from: the prefixes differ in their third character. */
  lemma InvoiceAndAdminKeysDiffer(invoiceUuid: string, adminUuid: string)
    ensures GenerateProviderKey(InvoiceKeyPrefix, invoiceUuid) != GenerateProviderKey(AdminKeyPrefix, adminUuid)
  {
    var ik := GenerateProviderKey(InvoiceKeyPrefix, invoiceUuid);
    var ak := GenerateProviderKey(AdminKeyPrefix, adminUuid);
    assert ik[2] == ik[..5][2] == 'i';
    assert ak[2] == ak[..5][2] == 'a';
  }
}
