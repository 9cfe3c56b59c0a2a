/**
  The request constraint that decides whether a request's subdomain is
  unrecognised and must be redirected to the canonical site.

  The channel registry (`Channel.all`) is a parameter: it is read afresh on
  every call, so the predicate has no state of its own.
 */
module NonValidSubdomainConstraint {

  /** A channel, a white-labelled sub-site addressed by its permalink. */
  datatype Channel = Channel(permalink: string)

  /** The reserved subdomain that is whitelisted although no channel owns it. */
  const Donate: string := "donate"

  /** `Channel.all.map(&:permalink)`: the permalinks, in registry order. */
  function Permalinks(channels: seq<Channel>): (ps: seq<string>)
    ensures |ps| == |channels|
    ensures forall i :: 0 <= i < |channels| ==> ps[i] == channels[i].permalink
  {
    if channels == [] then [] else [channels[0].permalink] + Permalinks(channels[1..])
  }

  /**
    The whitelist: a fresh list of the permalinks with `'donate'` appended to
    it. The registry itself is a value here and cannot be changed by the append.
   */
  function WhiteList(channels: seq<Channel>): (w: seq<string>)
    ensures forall s :: s in w <==> s == Donate || s in PermalinkSet(channels)
  {
    var w := Permalinks(channels) + [Donate];
    assert forall s :: s in Permalinks(channels) <==> s in PermalinkSet(channels) by {
      forall s ensures s in Permalinks(channels) <==> s in PermalinkSet(channels) {
        PermalinkMembership(channels, s);
      }
    }
    w
  }

  /** `list.include?(x)`: a front-to-back scan comparing with `==`. */
  function Includes(list: seq<string>, x: string): (found: bool)
    ensures found <==> x in list
  {
    if list == [] then false
    else if list[0] == x then true
    else Includes(list[1..], x)
  }

  /**
    `matches?(request)`: true means "not a valid subdomain, redirect". It holds
    exactly when the subdomain is neither `'donate'` nor the permalink of a
    registered channel.
   */
  function Matches(channels: seq<Channel>, subdomain: string): (redirect: bool)
    ensures redirect <==> subdomain != Donate && forall c :: c in channels ==> c.permalink != subdomain
  {
    var whiteList := WhiteList(channels);
    assert subdomain in Permalinks(channels) <==> exists c :: c in channels && c.permalink == subdomain by {
      PermalinkMembership(channels, subdomain);
    }
    !Includes(whiteList, subdomain)
  }

  /** A string is among the permalinks exactly when some channel carries it. */
  lemma PermalinkMembership(channels: seq<Channel>, s: string)
    ensures s in Permalinks(channels) <==> exists c :: c in channels && c.permalink == s
  {
    var ps := Permalinks(channels);
    if s in ps {
      var i :| 0 <= i < |ps| && ps[i] == s;
      assert channels[i] in channels;
    }
    if c :| c in channels && c.permalink == s {
      var i :| 0 <= i < |channels| && channels[i] == c;
      assert ps[i] == s;
    }
  }

  /** The whitelist holds each registered permalink, in order, followed by `'donate'`. */
  lemma WhiteListExtendsRegistry(channels: seq<Channel>)
    ensures |WhiteList(channels)| == |channels| + 1
    ensures forall i :: 0 <= i < |channels| ==> WhiteList(channels)[i] == channels[i].permalink
    ensures WhiteList(channels)[|channels|] == Donate
  {
  }

  /** `'donate'` is never redirected, whatever the registry holds, even when it is empty. */
  lemma DonateNeverRedirected(channels: seq<Channel>)
    ensures !Matches(channels, Donate)
    ensures !Matches([], "donate")
  {
  }

  /** The permalink of every registered channel is never redirected. */
  lemma RegisteredNeverRedirected(channels: seq<Channel>, c: Channel)
    requires c in channels
    ensures !Matches(channels, c.permalink)
  {
  }

  /** The permalinks of `channels`, as a set. */
  function PermalinkSet(channels: seq<Channel>): set<string>
  {
    set c | c in channels :: c.permalink
  }

  /**
    Only the set of permalinks matters: reordering or duplicating channels
    leaves the verdict unchanged.
   */
  lemma OnlyPermalinkSetMatters(a: seq<Channel>, b: seq<Channel>, subdomain: string)
    requires PermalinkSet(a) == PermalinkSet(b)
    ensures Matches(a, subdomain) == Matches(b, subdomain)
  {
    if c :| c in a && c.permalink == subdomain {
      assert subdomain in PermalinkSet(b);
    }
    if c :| c in b && c.permalink == subdomain {
      assert subdomain in PermalinkSet(a);
    }
  }

  /**
    Monotonicity: registering more channels can only turn a redirect into
    no redirect, never the reverse.
   */
  lemma MoreChannelsRedirectLess(channels: seq<Channel>, more: seq<Channel>, subdomain: string)
    requires PermalinkSet(channels) <= PermalinkSet(more)
    ensures Matches(more, subdomain) ==> Matches(channels, subdomain)
  {
    if c :| c in channels && c.permalink == subdomain {
      assert subdomain in PermalinkSet(more);
    }
  }

  /** Adding one channel anywhere in the registry is an instance of monotonicity. */
  lemma AddingChannelRedirectsLess(front: seq<Channel>, back: seq<Channel>, added: Channel, subdomain: string)
    ensures Matches(front + [added] + back, subdomain) ==> Matches(front + back, subdomain)
    ensures !Matches(front + [added] + back, added.permalink)
  {
    assert PermalinkSet(front + back) <= PermalinkSet(front + [added] + back) by {
      forall c | c in front + back ensures c in front + [added] + back {
      }
    }
    MoreChannelsRedirectLess(front + back, front + [added] + back, subdomain);
    assert added in front + [added] + back;
  }

  /** An empty subdomain is redirected unless some channel has an empty permalink. */
  lemma EmptySubdomain(channels: seq<Channel>)
    ensures Matches(channels, "") <==> forall c :: c in channels ==> c.permalink != ""
  {
  }

  /** One channel `acme`: `acme` and `donate` are served, `evil` is redirected. */
  lemma AcmeRegistry()
    ensures !Matches([Channel("acme")], "acme")
    ensures Matches([Channel("acme")], "evil")
    ensures !Matches([Channel("acme")], "donate")
  {
  }
}
