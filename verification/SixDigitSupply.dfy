/** The generator does yield 100 different six-digit numbers: one in each hundredth of its range. */
module SixDigitSupply {
  import opened Mulberry
  import opened RegistrationNumbers

  /** Which hundredth of the range the draw from state `a` falls in. */
  function Hundredth(a: Word): nat { Scale(Output(a), 100) }

  /** `states[i]` draws in the i-th hundredth. */
  ghost predicate OnePerHundredth(states: seq<Word>) {
    forall i :: 0 <= i < |states| ==> Hundredth(states[i]) == i
  }

  /** One more state: `b` mixes to `m`, which as a number is `v`. */
  lemma Add(states: seq<Word>, b: bv32, m: bv32, v: Word) returns (more: seq<Word>)
    requires OnePerHundredth(states)
    requires Mix(b) == m && Unsigned(m) == v && |states| * RANGE <= v * 100 < (|states| + 1) * RANGE
    ensures OnePerHundredth(more) && |more| == |states| + 1
  {
    hide Mix, Bits, Unsigned;
    BitsBack(b);
    more := states + [Unsigned(b)];
  }

  lemma BitsBack(b: bv32)
    ensures Bits(Unsigned(b)) == b
  {
  }

  lemma Ten0(s: seq<Word>) returns (t: seq<Word>)
    requires OnePerHundredth(s) && |s| == 0
    ensures OnePerHundredth(t) && |t| == 10
  {
    t := Add(s, 1, 63, 63);
    t := Add(t, 81, 43134850, 43134850);
    t := Add(t, 96, 86465301, 86465301);
    t := Add(t, 107, 131595775, 131595775);
    t := Add(t, 114, 172349895, 172349895);
    t := Add(t, 121, 214811438, 214811438);
    t := Add(t, 126, 259064709, 259064709);
    t := Add(t, 132, 306859073, 306859073);
    t := Add(t, 136, 346082039, 346082039);
    t := Add(t, 140, 392430727, 392430727);
  }

  lemma Ten10(s: seq<Word>) returns (t: seq<Word>)
    requires OnePerHundredth(s) && |s| == 10
    ensures OnePerHundredth(t) && |t| == 20
  {
    t := Add(s, 144, 434983187, 434983187);
    t := Add(t, 148, 489063987, 489063987);
    t := Add(t, 151, 524253701, 524253701);
    t := Add(t, 154, 571507140, 571507140);
    t := Add(t, 157, 610407149, 610407149);
    t := Add(t, 160, 662925450, 662925450);
    t := Add(t, 162, 703107512, 703107512);
    t := Add(t, 164, 730447407, 730447407);
    t := Add(t, 168, 801689216, 801689216);
    t := Add(t, 170, 845584118, 845584118);
  }

  lemma Ten20(s: seq<Word>) returns (t: seq<Word>)
    requires OnePerHundredth(s) && |s| == 20
    ensures OnePerHundredth(t) && |t| == 30
  {
    t := Add(s, 171, 859997650, 859997650);
    t := Add(t, 174, 921224321, 921224321);
    t := Add(t, 176, 967455804, 967455804);
    t := Add(t, 178, 1016299731, 1016299731);
    t := Add(t, 179, 1032778849, 1032778849);
    t := Add(t, 270, 1101418662, 1101418662);
    t := Add(t, 182, 1119324860, 1119324860);
    t := Add(t, 184, 1167374987, 1167374987);
    t := Add(t, 187, 1232600899, 1232600899);
    t := Add(t, 188, 1273765689, 1273765689);
  }

  lemma Ten30(s: seq<Word>) returns (t: seq<Word>)
    requires OnePerHundredth(s) && |s| == 30
    ensures OnePerHundredth(t) && |t| == 40
  {
    t := Add(s, 190, 1310845864, 1310845864);
    t := Add(t, 191, 1343410786, 1343410786);
    t := Add(t, 192, 1386124962, 1386124962);
    t := Add(t, 194, 1424741513, 1424741513);
    t := Add(t, 197, 1498728248, 1498728248);
    t := Add(t, 196, 1503878581, 1503878581);
    t := Add(t, 199, 1577136533, 1577136533);
    t := Add(t, 200, 1609669689, 1609669689);
    t := Add(t, 435, 1632940385, 1632940385);
    t := Add(t, 202, 1695297112, 1695297112);
  }

  lemma Ten40(s: seq<Word>) returns (t: seq<Word>)
    requires OnePerHundredth(s) && |s| == 40
    ensures OnePerHundredth(t) && |t| == 50
  {
    t := Add(s, 204, 1736926537, 1736926537);
    t := Add(t, 205, 1780169733, 1780169733);
    t := Add(t, 206, 1834576898, 1834576898);
    t := Add(t, 208, 1877260291, 1877260291);
    t := Add(t, 209, 1924056536, 1924056536);
    t := Add(t, 210, 1956319415, 1956319415);
    t := Add(t, 320, 1997651994, 1997651994);
    t := Add(t, 212, 2047379225, 2047379225);
    t := Add(t, 350, 2100185305, 2100185305);
    t := Add(t, 214, 2107107455, 2107107455);
  }

  lemma Ten50(s: seq<Word>) returns (t: seq<Word>)
    requires OnePerHundredth(s) && |s| == 50
    ensures OnePerHundredth(t) && |t| == 60
  {
    t := Add(s, 215, 2155600351, 2155600351);
    t := Add(t, 216, 2191013446, 2191013446);
    t := Add(t, 601, 2270650033, 2270650033);
    t := Add(t, 218, 2285916931, 2285916931);
    t := Add(t, 220, 2348025875, 2348025875);
    t := Add(t, 221, 2399619441, 2399619441);
    t := Add(t, 222, 2446055110, 2446055110);
    t := Add(t, 286, 2476627565, 2476627565);
    t := Add(t, 223, 2495165406, 2495165406);
    t := Add(t, 224, 2548751079, 2548751079);
  }

  lemma Ten60(s: seq<Word>) returns (t: seq<Word>)
    requires OnePerHundredth(s) && |s| == 60
    ensures OnePerHundredth(t) && |t| == 70
  {
    t := Add(s, 352, 2599163579, 2599163579);
    t := Add(t, 226, 2653919649, 2653919649);
    t := Add(t, 228, 2705792553, 2705792553);
    t := Add(t, 580, 2744332818, 2744332818);
    t := Add(t, 229, 2757294249, 2757294249);
    t := Add(t, 230, 2805981002, 2805981002);
    t := Add(t, 231, 2867030152, 2867030152);
    t := Add(t, 232, 2914807085, 2914807085);
    t := Add(t, 463, 2930457063, 2930457063);
    t := Add(t, 233, 2972902903, 2972902903);
  }

  lemma Ten70(s: seq<Word>) returns (t: seq<Word>)
    requires OnePerHundredth(s) && |s| == 70
    ensures OnePerHundredth(t) && |t| == 80
  {
    t := Add(s, 234, 3034980662, 3034980662);
    t := Add(t, 376, 3066970557, 3066970557);
    t := Add(t, 328, 3095082512, 3095082512);
    t := Add(t, 236, 3147190026, 3147190026);
    t := Add(t, 294, 3179371423, 3179371423);
    t := Add(t, 238, 3256275009, 3256275009);
    t := Add(t, 517, 3287385109, 3287385109);
    t := Add(t, 240, 3320361225, 3320361225);
    t := Add(t, 241, 3378831883, 3378831883);
    t := Add(t, 296, 3398893097, 3398893097);
  }

  lemma Ten80(s: seq<Word>) returns (t: seq<Word>)
    requires OnePerHundredth(s) && |s| == 80
    ensures OnePerHundredth(t) && |t| == 90
  {
    t := Add(s, 242, 3440180848, 3440180848);
    t := Add(t, 243, 3498850281, 3498850281);
    t := Add(t, 244, 3558873526, 3558873526);
    t := Add(t, 398, 3596858649, 3596858649);
    t := Add(t, 245, 3622021640, 3622021640);
    t := Add(t, 246, 3681239072, 3681239072);
    t := Add(t, 298, 3709155983, 3709155983);
    t := Add(t, 247, 3744034515, 3744034515);
    t := Add(t, 248, 3807704527, 3807704527);
    t := Add(t, 559, 3846539920, 3846539920);
  }

  lemma Ten90(s: seq<Word>) returns (t: seq<Word>)
    requires OnePerHundredth(s) && |s| == 90
    ensures OnePerHundredth(t) && |t| == 100
  {
    t := Add(s, 249, 3870887209, 3870887209);
    t := Add(t, 250, 3936984732, 3936984732);
    t := Add(t, 334, 3974787631, 3974787631);
    t := Add(t, 251, 4001510757, 4001510757);
    t := Add(t, 252, 4066929456, 4066929456);
    t := Add(t, 303, 4084545831, 4084545831);
    t := Add(t, 253, 4132516880, 4132516880);
    t := Add(t, 254, 4198711818, 4198711818);
    t := Add(t, 337, 4230203582, 4230203582);
    t := Add(t, 255, 4265084324, 4265084324);
  }

  /** A hundred states that draw a hundred different six-digit numbers. */
  lemma SixDigitStates() returns (states: seq<Word>)
    ensures |states| == 100 && Supply(states, 6)
  {
    states := Ten0([]);
    states := Ten10(states);
    states := Ten20(states);
    states := Ten30(states);
    states := Ten40(states);
    states := Ten50(states);
    states := Ten60(states);
    states := Ten70(states);
    states := Ten80(states);
    states := Ten90(states);
    forall i, j | 0 <= i < j < |states|
      ensures Candidate(states[i], 6) != Candidate(states[j], 6)
    {
      SameNumberSameHundredth(states[i], states[j]);
    }
  }

  /** Nine thousand six-digit numbers to each hundredth. */
  lemma SameNumberSameHundredth(a: Word, b: Word)
    ensures Candidate(a, 6) == Candidate(b, 6) ==> Hundredth(a) == Hundredth(b)
  {
    assert Pow10(5) == 100000 && Pow10(6) == 1000000 by {
      assert Pow10(3) == 1000;
    }
    HundredthOf(Output(a));
    HundredthOf(Output(b));
  }

  lemma HundredthOf(v: Word)
    ensures Scale(v, 900000) / 9000 == Scale(v, 100)
  {
  }
}
