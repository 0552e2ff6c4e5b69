// Destination names: what makes one FIFO, and the key the account files a queue or topic under.
module Names {
  import opened Basics

  const MAX_QUEUE_NAME := 80
  const MAX_TOPIC_NAME := 256

  predicate EndsWith(s: string, suffix: string)
  {
    |suffix| <= |s| && s[|s| - |suffix|..] == suffix
  }

  predicate StartsWith(s: string, prefix: string)
  {
    |prefix| <= |s| && s[..|prefix|] == prefix
  }

  function ToLower(s: string): string
  {
    seq(|s|, i requires 0 <= i < |s| => if 'A' <= s[i] <= 'Z' then s[i] - 'A' + 'a' else s[i])
  }

  /** The `.fifo` suffix, in any letter case, is what makes a name FIFO. */
  predicate IsFifo(name: string)
  {
    EndsWith(ToLower(name), ".fifo")
  }

  predicate IsAlphanumeric(c: char)
  {
    'a' <= c <= 'z' || 'A' <= c <= 'Z' || '0' <= c <= '9'
  }

  function MapStem(stem: string): (mapped: string)
    ensures |mapped| == |stem|
  {
    seq(|stem|, i requires 0 <= i < |stem| =>
      if IsAlphanumeric(stem[i]) || stem[i] == '-' || stem[i] == '_' then stem[i] else '-')
  }

  /** A logical name on the alphabet SQS takes; only the lower-case suffix is kept as FIFO. */
  function ResourceName(logical: string): string
  {
    if EndsWith(logical, ".fifo") then MapStem(logical[..|logical| - 5]) + ".fifo" else MapStem(logical)
  }

  /** What follows the last separator of `s`. */
  function AfterLast(s: string, separator: char): string
  {
    if s == "" || s[|s| - 1] == separator then ""
    else AfterLast(s[..|s| - 1], separator) + [s[|s| - 1]]
  }

  function TrimEnd(s: string, c: char): string
  {
    if s != "" && s[|s| - 1] == c then TrimEnd(s[..|s| - 1], c) else s
  }

  /** The length of a string in UTF-8, which is what the length limits count. */
  function ByteLength(s: string): nat
  {
    if s == "" then 0
    else
      var c := s[0] as int;
      (if c < 0x80 then 1 else if c < 0x800 then 2 else if c < 0x10000 then 3 else 4) + ByteLength(s[1..])
  }

  /** The key of a queue: the last path segment of a URL, or the mapped name. */
  function QueueKey(name: string): Option<string>
  {
    var key :=
      if StartsWith(name, "http://") || StartsWith(name, "https://") then AfterLast(TrimEnd(name, '/'), '/')
      else ResourceName(name);
    if key == "" || ByteLength(key) > MAX_QUEUE_NAME then None else Some(key)
  }

  /** The key of a topic: the last segment of an ARN, or the mapped name. */
  function TopicKey(name: string): Option<string>
  {
    var key := if StartsWith(name, "arn:") then AfterLast(name, ':') else ResourceName(name);
    if key == "" || ByteLength(key) > MAX_TOPIC_NAME then None else Some(key)
  }

  // ---------------------------------------------------------------------------------------------
  // Names and URLs of one queue

  /** What a mapped name is made of. */
  predicate Mapped(s: string)
  {
    forall i :: 0 <= i < |s| ==> IsAlphanumeric(s[i]) || s[i] == '-' || s[i] == '_' || s[i] == '.'
  }

  /** A name is mapped once: mapping it again changes nothing, and the FIFO suffix stays what it was. */
  lemma MappedOnce(logical: string)
    ensures Mapped(ResourceName(logical)) && ResourceName(ResourceName(logical)) == ResourceName(logical)
    ensures EndsWith(ResourceName(logical), ".fifo") <==> EndsWith(logical, ".fifo")
  {
    var name := ResourceName(logical);
    if EndsWith(logical, ".fifo") {
      assert name[|name| - 5..] == ".fifo" && name[..|name| - 5] == MapStem(logical[..|logical| - 5]);
    } else if |name| >= 5 {
      assert name[|name| - 5] != '.';
      assert name[|name| - 5..][0] == name[|name| - 5];
    }
  }

  /** A mapped name has no upper-case suffix to tell apart. */
  lemma FifoOfMapped(logical: string)
    ensures IsFifo(ResourceName(logical)) <==> EndsWith(logical, ".fifo")
  {
    MappedOnce(logical);
    var name := ResourceName(logical);
    var low := ToLower(name);
    if EndsWith(low, ".fifo") {
      assert low[|low| - 5..][0] == '.';
      assert name[|name| - 5] == '.';
    }
    if EndsWith(name, ".fifo") {
      var suffix := name[|name| - 5..];
      assert forall i :: 0 <= i < |suffix| ==> low[|low| - 5..][i] == suffix[i];
      assert low[|low| - 5..] == ".fifo";
    }
  }

  lemma {:induction false} LastSegment(base: string, key: string)
    requires key != "" && forall i :: 0 <= i < |key| ==> key[i] != '/'
    ensures TrimEnd(base + "/" + key, '/') == base + "/" + key
    ensures AfterLast(base + "/" + key, '/') == key
  {
    var url := base + "/" + key;
    assert url[|url| - 1] == key[|key| - 1];
    assert url[..|url| - 1] == base + "/" + key[..|key| - 1];
    if |key| == 1 {
      assert url[..|url| - 1] == base + "/";
    } else {
      LastSegment(base, key[..|key| - 1]);
    }
  }

  /**
   * The key a name is filed under addresses the same queue again, and so does the queue's URL, with
   * or without a separator at its end.
   */
  lemma AddressedAlike(name: string, host: string)
    requires QueueKey(name).Some? && !StartsWith(name, "http://") && !StartsWith(name, "https://")
    ensures var key := QueueKey(name).value;
            && QueueKey(key) == Some(key) && QueueKey("https://" + host + "/" + key) == Some(key)
            && QueueKey("https://" + host + "/" + key + "/") == Some(key)
            && (IsFifo(key) <==> EndsWith(name, ".fifo"))
  {
    var key := QueueKey(name).value;
    MappedOnce(name);
    FifoOfMapped(name);
    NoScheme(key);
    LastSegment("https://" + host, key);
    var url := "https://" + host + "/" + key;
    assert url[..8] == "https://" && (url + "/")[..8] == "https://" && (url + "/")[..|url|] == url;
  }

  lemma NoScheme(key: string)
    requires Mapped(key)
    ensures !StartsWith(key, "http://") && !StartsWith(key, "https://")
  {
    assert |key| >= 7 ==> key[..7][4] == key[4];
    assert |key| >= 8 ==> key[..8][5] == key[5];
  }
}
