/**
 * The shape both build-matrix engines share: each channel of an app is decided on its own and
 * contributes at most one entry (an image and that image's platform records); the image list is
 * the entries' images in order and the platform list their records in order; the aggregator
 * concatenates the entries of every app in order. Generic in the channel, image and platform types.
 */
module Plans {
  import opened Wrappers

  /** What one channel contributes: its image and that image's platform records. */
  datatype Entry<I, P> = Entry(image: I, platforms: seq<P>)

  /** The entries of a channel list, in channel order; `decide` is the loop body, `None` for a skip. */
  function PlanOver<C, I, P>(channels: seq<C>, decide: C -> Option<Entry<I, P>>): seq<Entry<I, P>>
  {
    if channels == [] then []
    else
      PlanOver(channels[..|channels| - 1], decide)
      + match decide(channels[|channels| - 1])
        case None => []
        case Some(e) => [e]
  }

  /** The image list of a plan. */
  function ImagesOf<I, P>(plan: seq<Entry<I, P>>): seq<I>
  {
    if plan == [] then [] else ImagesOf(plan[..|plan| - 1]) + [plan[|plan| - 1].image]
  }

  /** The platform list of a plan. */
  function PlatformsOf<I, P>(plan: seq<Entry<I, P>>): seq<P>
  {
    if plan == [] then [] else PlatformsOf(plan[..|plan| - 1]) + plan[|plan| - 1].platforms
  }

  lemma {:induction false} ImagesOfAppend<I, P>(a: seq<Entry<I, P>>, b: seq<Entry<I, P>>)
    ensures ImagesOf(a + b) == ImagesOf(a) + ImagesOf(b)
  {
    if b == [] {
      assert a + b == a;
    } else {
      assert (a + b)[..|a + b| - 1] == a + b[..|b| - 1];
      ImagesOfAppend(a, b[..|b| - 1]);
    }
  }

  lemma {:induction false} PlatformsOfAppend<I, P>(a: seq<Entry<I, P>>, b: seq<Entry<I, P>>)
    ensures PlatformsOf(a + b) == PlatformsOf(a) + PlatformsOf(b)
  {
    if b == [] {
      assert a + b == a;
    } else {
      assert (a + b)[..|a + b| - 1] == a + b[..|b| - 1];
      PlatformsOfAppend(a, b[..|b| - 1]);
    }
  }

  /** Deciding one more channel appends its entry, if any. */
  lemma PlanOverStep<C, I, P>(channels: seq<C>, i: nat, decide: C -> Option<Entry<I, P>>)
    requires i < |channels|
    ensures ImagesOf(PlanOver(channels[..i + 1], decide))
         == ImagesOf(PlanOver(channels[..i], decide)) + (if decide(channels[i]).Some? then [decide(channels[i]).value.image] else [])
    ensures PlatformsOf(PlanOver(channels[..i + 1], decide))
         == PlatformsOf(PlanOver(channels[..i], decide)) + (if decide(channels[i]).Some? then decide(channels[i]).value.platforms else [])
  {
    assert channels[..i + 1][..i] == channels[..i];
    var done := PlanOver(channels[..i], decide);
    if decide(channels[i]).Some? {
      var e := decide(channels[i]).value;
      assert PlanOver(channels[..i + 1], decide) == done + [e];
      assert (done + [e])[..|done|] == done;
    } else {
      assert PlanOver(channels[..i + 1], decide) == done;
    }
  }

  /** Channels are decided one by one, so the plan of a concatenation is the concatenation of the plans. */
  lemma {:induction false} PlanOverAppend<C, I, P>(a: seq<C>, b: seq<C>, decide: C -> Option<Entry<I, P>>)
    ensures PlanOver(a + b, decide) == PlanOver(a, decide) + PlanOver(b, decide)
  {
    if b == [] {
      assert a + b == a;
    } else {
      assert (a + b)[..|a + b| - 1] == a + b[..|b| - 1];
      PlanOverAppend(a, b[..|b| - 1], decide);
    }
  }

  /** Every entry is the decision of one of the channels, and there are at most as many entries as channels. */
  lemma {:induction false} PlanEntriesFromChannels<C, I, P>(channels: seq<C>, decide: C -> Option<Entry<I, P>>)
    ensures |PlanOver(channels, decide)| <= |channels|
    ensures forall e :: e in PlanOver(channels, decide) ==> exists channel :: channel in channels && decide(channel) == Some(e)
  {
    if channels != [] {
      var prefix := channels[..|channels| - 1];
      PlanEntriesFromChannels(prefix, decide);
      assert channels[|channels| - 1] in channels;
      assert forall channel :: channel in prefix ==> channel in channels;
    }
  }

  lemma {:induction false} ImagesLength<I, P>(plan: seq<Entry<I, P>>)
    ensures |ImagesOf(plan)| == |plan|
  {
    if plan != [] {
      ImagesLength(plan[..|plan| - 1]);
    }
  }

  /** The platform records are grouped by image: entry `i`'s records follow those of the entries before it. */
  lemma PlatformsGroupedByImage<I, P>(plan: seq<Entry<I, P>>, i: nat)
    requires i < |plan|
    ensures |ImagesOf(plan)| == |plan| && ImagesOf(plan)[i] == plan[i].image
    ensures PlatformsOf(plan) == PlatformsOf(plan[..i]) + plan[i].platforms + PlatformsOf(plan[i + 1..])
  {
    var one := [plan[i]];
    assert one[..0] == [];
    assert ImagesOf(one) == [plan[i].image];
    assert PlatformsOf(one) == plan[i].platforms;
    assert plan == plan[..i] + one + plan[i + 1..];
    ImagesOfAppend(plan[..i] + one, plan[i + 1..]);
    ImagesOfAppend(plan[..i], one);
    PlatformsOfAppend(plan[..i] + one, plan[i + 1..]);
    PlatformsOfAppend(plan[..i], one);
    ImagesLength(plan);
    ImagesLength(plan[..i]);
  }

  // ---------------------------------------------------------------------------
  // Across apps

  /** The entries of the selected apps, in app order; `perApp` is what one app contributes. */
  function AppsPlan<I, P>(apps: seq<string>, perApp: string -> seq<Entry<I, P>>): seq<Entry<I, P>>
  {
    if apps == [] then [] else AppsPlan(apps[..|apps| - 1], perApp) + perApp(apps[|apps| - 1])
  }

  /** Processing one more app appends its lists. */
  lemma AppsPlanStep<I, P>(apps: seq<string>, i: nat, perApp: string -> seq<Entry<I, P>>)
    requires i < |apps|
    ensures ImagesOf(AppsPlan(apps[..i + 1], perApp)) == ImagesOf(AppsPlan(apps[..i], perApp)) + ImagesOf(perApp(apps[i]))
    ensures PlatformsOf(AppsPlan(apps[..i + 1], perApp)) == PlatformsOf(AppsPlan(apps[..i], perApp)) + PlatformsOf(perApp(apps[i]))
  {
    assert apps[..i + 1][..i] == apps[..i];
    ImagesOfAppend(AppsPlan(apps[..i], perApp), perApp(apps[i]));
    PlatformsOfAppend(AppsPlan(apps[..i], perApp), perApp(apps[i]));
  }

  /** An app that contributes nothing leaves the lists as they are. */
  lemma AppsPlanSkip<I, P>(apps: seq<string>, i: nat, perApp: string -> seq<Entry<I, P>>)
    requires i < |apps| && perApp(apps[i]) == []
    ensures AppsPlan(apps[..i + 1], perApp) == AppsPlan(apps[..i], perApp)
  {
    assert apps[..i + 1][..i] == apps[..i];
  }

  /** Apps are processed one by one: the plan of a concatenation is the concatenation of the plans. */
  lemma {:induction false} AppsPlanAppend<I, P>(a: seq<string>, b: seq<string>, perApp: string -> seq<Entry<I, P>>)
    ensures AppsPlan(a + b, perApp) == AppsPlan(a, perApp) + AppsPlan(b, perApp)
  {
    if b == [] {
      assert a + b == a;
    } else {
      assert (a + b)[..|a + b| - 1] == a + b[..|b| - 1];
      AppsPlanAppend(a, b[..|b| - 1], perApp);
    }
  }

  /** An app whose plan is empty leaves the others' plans as they are. */
  lemma EmptyAppContributesNothing<I, P>(a: seq<string>, app: string, b: seq<string>, perApp: string -> seq<Entry<I, P>>)
    requires perApp(app) == []
    ensures AppsPlan(a + [app] + b, perApp) == AppsPlan(a + b, perApp)
  {
    AppsPlanAppend(a + [app], b, perApp);
    AppsPlanAppend(a, [app], perApp);
    AppsPlanAppend(a, b, perApp);
    assert [app][..0] == [];
  }

  lemma ConcatAssoc<T>(a: seq<T>, b: seq<T>, c: seq<T>)
    ensures (a + b) + c == a + (b + c)
  {
  }
}
