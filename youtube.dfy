/**
 * The YouTube search command (`Search`, the one concrete subclass of `SearchBase`):
 * its URL test and its consumer, which turns a ytsr search result into the
 * `SongInfo` records the search panel lists.
 */
module YouTube {
  import opened Strings
  import opened Wrappers

  /** The thumbnail ytsr rates best for an item. */
  datatype Thumbnail = Thumbnail(url: string)

  /** The channel that uploaded a video. */
  datatype Author = Author(name: string)

  /** Every ytsr item type other than "video" (channel, playlist, mix, shelf, ...). */
  type OtherKind = k: string | k != "video" witness "channel"

  /**
   * One entry of a ytsr result. ytsr's item type is a union discriminated by its
   * `type` tag; the video fields exist only on items tagged "video".
   */
  datatype Item =
    | Video(url: string, title: string, duration: string, bestThumbnail: Thumbnail, author: Author)
    | OtherItem(kind: OtherKind)

  /** The `type` tag of an item. */
  function Tag(item: Item): (t: string)
    ensures t == "video" <==> item.Video?
  {
    match item
    case Video(_, _, _, _, _) => "video"
    case OtherItem(k) => k
  }

  /** A ytsr search result: the only part the consumer reads is `items`. */
  datatype SearchResult = SearchResult(items: seq<Item>)

  /** The record a search panel shows for one playable result. */
  datatype SongInfo = SongInfo(
    url: string,
    title: string,
    duration: string,
    thumbnail: string,
    author: string,
    description: string)

  /** The two fixed labels of a result's description line ("length: ", ", channel name: "). */
  const DurationLabel: string := "長さ: "
  const ChannelLabel: string := ", チャンネル名: "

  /** The description line of a result, made of its duration and its channel name only. */
  function Describe(duration: string, authorName: string): (d: string)
    ensures |d| == |DurationLabel| + |duration| + |ChannelLabel| + |authorName|
    ensures StartsWith(d, DurationLabel)
    ensures d[|DurationLabel|..|DurationLabel| + |duration|] == duration
    ensures d[|DurationLabel| + |duration|..|d| - |authorName|] == ChannelLabel
    ensures d[|d| - |authorName|..] == authorName
  {
    DurationLabel + duration + ChannelLabel + authorName
  }

  /** The map step of the consumer: a video becomes a record, every other item null (None). */
  function Candidate(item: Item): (c: Option<SongInfo>)
    ensures c.Some? <==> item.Video?
  {
    if Tag(item) != "video" then None
    else Some(SongInfo(
      item.url,
      item.title,
      item.duration,
      item.bestThumbnail.url,
      item.author.name,
      Describe(item.duration, item.author.name)))
  }

  /** The filter step of the consumer: keeps the non-null entries, in order. */
  function Present(cs: seq<Option<SongInfo>>): (r: seq<SongInfo>)
    ensures |r| <= |cs|
  {
    if cs == [] then []
    else (if cs[0].Some? then [cs[0].value] else []) + Present(cs[1..])
  }

  /** The mapped sequence the filter step runs over. */
  function Candidates(items: seq<Item>): (cs: seq<Option<SongInfo>>)
    ensures |cs| == |items|
  {
    seq(|items|, i requires 0 <= i < |items| => Candidate(items[i]))
  }

  /** `consumer({items})`: `items.map(Candidate).filter(n => n)`. */
  function Consumer(result: SearchResult): (r: seq<SongInfo>)
    ensures |r| <= |result.items|
  {
    Present(Candidates(result.items))
  }

  /** `urlCheck`: the query is a link when it starts with "http://" or "https://". */
  function UrlCheck(query: string): (r: bool)
    ensures r <==> (|query| >= 7 && query[..7] == "http://") || (|query| >= 8 && query[..8] == "https://")
  {
    StartsWith(query, "http://") || StartsWith(query, "https://")
  }

  /** The positions of the video items, in increasing order: the reference the consumer is proved against. */
  function VideoIndices(items: seq<Item>): (idx: seq<nat>)
    ensures |idx| <= |items|
  {
    if items == [] then []
    else
      var rest := VideoIndices(items[..|items| - 1]);
      if items[|items| - 1].Video? then rest + [|items| - 1] else rest
  }

  /** `idx` lists, in strictly increasing order, exactly the positions of the videos in `items`. */
  ghost predicate ExactlyTheVideos(items: seq<Item>, idx: seq<nat>)
  {
    (forall k :: 0 <= k < |idx| ==> idx[k] < |items| && items[idx[k]].Video?)
    && (forall j, k :: 0 <= j < k < |idx| ==> idx[j] < idx[k])
    && (forall i :: 0 <= i < |items| && items[i].Video? ==> i in idx)
  }

  lemma {:induction false} VideoIndicesExact(items: seq<Item>)
    ensures ExactlyTheVideos(items, VideoIndices(items))
  {
    if items != [] {
      var init := items[..|items| - 1];
      VideoIndicesExact(init);
      VideoIndicesBelow(init);
      forall i | 0 <= i < |items| && items[i].Video?
        ensures i in VideoIndices(items)
      {
        if i < |init| {
          assert init[i] == items[i];
        }
      }
    }
  }

  /** Every listed position lies inside the sequence (the bound the induction above needs). */
  lemma {:induction false} VideoIndicesBelow(items: seq<Item>)
    ensures forall k :: 0 <= k < |VideoIndices(items)| ==> VideoIndices(items)[k] < |items|
  {
    if items != [] {
      VideoIndicesBelow(items[..|items| - 1]);
    }
  }

  /** The filter distributes over concatenation. */
  lemma {:induction false} PresentConcat(a: seq<Option<SongInfo>>, b: seq<Option<SongInfo>>)
    ensures Present(a + b) == Present(a) + Present(b)
  {
    if a != [] {
      assert (a + b)[1..] == a[1..] + b;
      PresentConcat(a[1..], b);
    } else {
      assert a + b == b;
    }
  }

  /**
   * The consumer's output is, position by position, the record of the k-th video of
   * the input: exactly the video items, in their original order.
   */
  lemma {:induction false} ConsumerIsVideosInOrder(items: seq<Item>)
    ensures |Present(Candidates(items))| == |VideoIndices(items)|
    ensures forall k :: 0 <= k < |VideoIndices(items)| ==>
      VideoIndices(items)[k] < |items| &&
      Candidate(items[VideoIndices(items)[k]]) == Some(Present(Candidates(items))[k])
  {
    VideoIndicesBelow(items);
    if items != [] {
      var n := |items| - 1;
      var init := items[..n];
      ConsumerIsVideosInOrder(init);
      assert Candidates(items) == Candidates(init) + [Candidate(items[n])];
      PresentConcat(Candidates(init), [Candidate(items[n])]);
      assert Present([Candidate(items[n])]) == (if items[n].Video? then [Candidate(items[n]).value] else []);
      VideoIndicesBelow(init);
      forall k | 0 <= k < |VideoIndices(init)|
        ensures items[VideoIndices(init)[k]] == init[VideoIndices(init)[k]]
      {
      }
    }
  }

  /** `s` is the record the consumer makes of the video `v`: each field copied, the description built from duration and channel. */
  ghost predicate IsRecordOf(s: SongInfo, v: Item)
  {
    v.Video?
    && s.url == v.url
    && s.title == v.title
    && s.duration == v.duration
    && s.thumbnail == v.bestThumbnail.url
    && s.author == v.author.name
    && s.description == Describe(v.duration, v.author.name)
  }

  /** The map step yields a record exactly for videos, and that record is the video's. */
  lemma CandidateSpec(item: Item)
    ensures Candidate(item).Some? <==> item.Video?
    ensures Candidate(item).Some? ==> IsRecordOf(Candidate(item).value, item)
  {
  }

  /**
   * The consumer keeps exactly the items tagged "video", in their original relative
   * order, and maps each one field by field to its `SongInfo`.
   */
  lemma ConsumerKeepsVideosInOrder(result: SearchResult)
    ensures ExactlyTheVideos(result.items, VideoIndices(result.items))
    ensures |Consumer(result)| == |VideoIndices(result.items)|
    ensures forall k :: 0 <= k < |Consumer(result)| ==>
      IsRecordOf(Consumer(result)[k], result.items[VideoIndices(result.items)[k]])
  {
    VideoIndicesExact(result.items);
    ConsumerIsVideosInOrder(result.items);
    forall k | 0 <= k < |Consumer(result)|
      ensures IsRecordOf(Consumer(result)[k], result.items[VideoIndices(result.items)[k]])
    {
      CandidateSpec(result.items[VideoIndices(result.items)[k]]);
    }
  }

  /** A record is in the output exactly when it is the record of some video of the input. */
  lemma ConsumerMembership(result: SearchResult, s: SongInfo)
    ensures s in Consumer(result) <==>
      exists i :: 0 <= i < |result.items| && IsRecordOf(s, result.items[i])
  {
    var items, r, idx := result.items, Consumer(result), VideoIndices(result.items);
    ConsumerKeepsVideosInOrder(result);
    if s in r {
      var k :| 0 <= k < |r| && r[k] == s;
      assert IsRecordOf(s, items[idx[k]]);
    }
    if i :| 0 <= i < |items| && IsRecordOf(s, items[i]) {
      assert i in idx;
      var k :| 0 <= k < |idx| && idx[k] == i;
      assert IsRecordOf(r[k], items[i]);
      assert r[k] == s;
    }
  }

  /** Nothing is dropped exactly when every item is a video. */
  lemma {:induction false} ConsumerKeepsAll(result: SearchResult)
    ensures |Consumer(result)| == |result.items| <==> forall i :: 0 <= i < |result.items| ==> result.items[i].Video?
  {
    ConsumerKeepsVideosInOrder(result);
    AllVideosIndices(result.items);
  }

  lemma {:induction false} AllVideosIndices(items: seq<Item>)
    ensures |VideoIndices(items)| == |items| <==> forall i :: 0 <= i < |items| ==> items[i].Video?
  {
    if items != [] {
      var init := items[..|items| - 1];
      AllVideosIndices(init);
      assert forall i :: 0 <= i < |init| ==> init[i] == items[i];
    }
  }

  /** Consuming two item lists one after the other gives the same records as consuming them joined. */
  lemma ConsumerConcat(a: seq<Item>, b: seq<Item>)
    ensures Consumer(SearchResult(a + b)) == Consumer(SearchResult(a)) + Consumer(SearchResult(b))
  {
    assert Candidates(a + b) == Candidates(a) + Candidates(b);
    PresentConcat(Candidates(a), Candidates(b));
  }

  /** The empty query is never a link, so the link path and the missing-argument path of `run` cannot both apply. */
  lemma UrlCheckEmpty()
    ensures !UrlCheck("")
  {
  }

  /** A query for a "https" link is a link; a query with the scheme in upper case is not. */
  lemma UrlCheckExamples()
    ensures UrlCheck("https://example.com/v1")
    ensures UrlCheck("http://example.com")
    ensures !UrlCheck("night dance")
    ensures !UrlCheck("HTTPS://example.com")
    ensures !UrlCheck("ftp://example.com")
  {
    assert "https://example.com/v1"[..8] == "https://";
    assert "http://example.com"[..7] == "http://";
    assert "HTTPS://example.com"[0] != 'h';
    assert "ftp://example.com"[0] != 'h';
  }

  /** Three items of which one is a channel give the two videos' records, in order. */
  lemma ConsumerExample(a: Item, b: Item, c: OtherKind)
    requires a.Video? && b.Video?
    ensures Consumer(SearchResult([a, OtherItem(c), b])) ==
      [Candidate(a).value, Candidate(b).value]
  {
    var cs := [Candidate(a), None, Candidate(b)];
    assert Candidates([a, OtherItem(c), b]) == cs;
    assert cs[1..] == [None, Candidate(b)] && cs[1..][1..] == [Candidate(b)];
    assert Present([Candidate(b)]) == [Candidate(b).value];
    assert Present(cs[1..]) == Present([Candidate(b)]);
    assert Present(cs) == [Candidate(a).value] + Present(cs[1..]);
  }
}
