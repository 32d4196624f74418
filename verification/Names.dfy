/** The rotating secret names and the hash the parent publishes over them.

    The three kinds of secret live in disjoint name spaces, so a name carries its
    kind. `ObjectHash` is taken to be injective: a hash is the list it was made from.
 */
module Names {

  datatype Option<+T> = None | Some(value: T)

  datatype SecretName = Transport(name: string) | Notification(name: string) | Credential(name: string)

  /** The tuple a rendered configuration refers to. */
  datatype Names = Names(transport: string, notification: Option<string>, credential: Option<string>)

  /** The value of the `input-secret-hash` annotation; `Unset` is the empty string. */
  datatype InputSecretHash = Unset | HashOf(names: seq<SecretName>)

  function Optional(o: Option<string>, kind: string -> SecretName): seq<SecretName> {
    match o
    case None => []
    case Some(n) => [kind(n)]
  }

  /** The list that is hashed: transport first, then the optional names in order. */
  function RotatingNames(n: Names): seq<SecretName> {
    [Transport(n.transport)]
    + Optional(n.notification, x => Notification(x))
    + Optional(n.credential, x => Credential(x))
  }

  function ExpectedHash(n: Names): InputSecretHash {
    HashOf(RotatingNames(n))
  }

  /** The list names what is there and nothing else: the transport first, the credential last. */
  lemma HashNamesTheTuple(n: Names)
    ensures var list := ExpectedHash(n).names;
            && |list| == 1 + (if n.notification.Some? then 1 else 0) + (if n.credential.Some? then 1 else 0)
            && list[0] == Transport(n.transport)
            && (n.notification.Some? ==> list[1] == Notification(n.notification.value))
            && (n.credential.Some? ==> list[|list| - 1] == Credential(n.credential.value))
  {
  }

  /** Dropping absent names from the list loses nothing, because the kinds are disjoint:
      two tuples with the same hash are the same tuple. */
  lemma ExpectedHashIsInjective(a: Names, b: Names)
    ensures ExpectedHash(a) == ExpectedHash(b) <==> a == b
  {
    var la, lb := RotatingNames(a), RotatingNames(b);
    if la == lb {
      assert la[0] == Transport(a.transport) && lb[0] == Transport(b.transport);
      if |la| > 1 {
        assert la[1] == if a.notification.Some? then Notification(a.notification.value)
                        else Credential(a.credential.value);
        assert lb[1] == if b.notification.Some? then Notification(b.notification.value)
                        else Credential(b.credential.value);
      }
      if |la| > 2 {
        assert la[2] == Credential(a.credential.value) && lb[2] == Credential(b.credential.value);
      }
    }
  }
}
