/** The "which item is active" derivation shared by the web feed
    (`isPlaying: index === currentIndex`) and the native feed
    (`isActive={index === currentIndex}`): one flag per rendered item. */
module ActiveItem {

  /** The flags handed to the `count` rendered items. */
  function Flags(count: nat, current: int): (r: seq<bool>)
    ensures |r| == count
    ensures forall i :: 0 <= i < count ==> (r[i] <==> i == current)
  {
    seq(count, i => i == current)
  }

  /** Number of raised flags. */
  function CountRaised(flags: seq<bool>): nat {
    if flags == [] then 0 else (if flags[0] then 1 else 0) + CountRaised(flags[1..])
  }

  lemma {:induction false} CountRaisedOfAppend(a: seq<bool>, b: seq<bool>)
    ensures CountRaised(a + b) == CountRaised(a) + CountRaised(b)
  {
    if a == [] {
      assert a + b == b;
    } else {
      assert (a + b)[1..] == a[1..] + b;
      CountRaisedOfAppend(a[1..], b);
    }
  }

  /** One flag at a known position and none elsewhere gives a count of one;
      no flag at all gives zero. */
  lemma {:induction false} CountRaisedOneHot(flags: seq<bool>, k: int)
    requires forall i :: 0 <= i < |flags| ==> (flags[i] <==> i == k)
    ensures CountRaised(flags) == if 0 <= k < |flags| then 1 else 0
  {
    if flags != [] {
      var rest := flags[1..];
      forall i | 0 <= i < |rest| ensures rest[i] <==> i == k - 1 {
        assert rest[i] == flags[i + 1];
      }
      CountRaisedOneHot(rest, k - 1);
    }
  }

  /** At most one item plays; exactly one when the current index is in range. */
  lemma AtMostOneActive(count: nat, current: int)
    ensures CountRaised(Flags(count, current)) <= 1
    ensures CountRaised(Flags(count, current)) == 1 <==> 0 <= current < count
  {
    CountRaisedOneHot(Flags(count, current), current);
  }
}
