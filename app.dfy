/** The page's handlers as they run: each one updates the page's state in place. */
module App {
  import opened Wrappers
  import opened PullRequest
  import opened Cache
  import opened Fetcher
  import opened Render
  import opened PageModel

  class Page {
    /** `GitHubPR.validatePRUrl`, whose definition is not part of this model. */
    const validate: string -> Option<string>

    var hash: Hash
    var input: string
    var storage: map<Key, Entry>
    var banners: seq<string>
    var content: seq<Section>
    var loaderVisible: bool
    var buttonHidden: bool
    var log: seq<Request>

    /** The page's current state as a value. */
    function State(): PageState
      reads this
    {
      PageState(hash, input, storage, banners, content, loaderVisible, buttonHidden, log)
    }

    /** A page opened with address-bar fragment `hash` in a session whose storage is `storage`. */
    constructor (validate: string -> Option<string>, hash: Hash, storage: map<Key, Entry>)
      ensures this.validate == validate
      ensures State() == Initial(hash, storage)
    {
      this.validate := validate;
      this.hash := hash;
      this.input := "";
      this.storage := storage;
      this.banners := [];
      this.content := [];
      this.loaderVisible := false;
      this.buttonHidden := false;
      this.log := [];
    }

    /** `renderError(msg)`: append to an empty error container, otherwise replace its first message. */
    method RenderError(msg: string)
      modifies this
      ensures State() == old(State()).(banners := WithError(old(banners), msg))
      ensures |banners| >= 1 && banners[0] == msg
      ensures |old(banners)| <= 1 ==> banners == [msg]
    {
      if |banners| == 0 {
        banners := banners + [msg];
      } else {
        banners := [msg] + banners[1..];
      }
    }

    /** `preRender(key)`. */
    method PreRender(key: Key)
      modifies this
      ensures State() == PreRendered(old(State()), key)
      ensures banners == [] && buttonHidden && loaderVisible
    {
      input := key;
      if |content| > 0 {
        content := content[1..];
      }
      banners := [];
      buttonHidden := true;
      loaderVisible := true;
    }

    /** `postRender()`. */
    method PostRender()
      modifies this
      ensures State() == PostRendered(old(State()))
      ensures !buttonHidden && !loaderVisible
    {
      buttonHidden := false;
      loaderVisible := false;
    }

    /** `renderInfo(data)`. */
    method RenderInfo(data: PRData)
      modifies this
      ensures State() == Shown(old(State()), data)
      ensures content == old(content) + [Build(data)]
    {
      content := content + [Build(data)];
    }

    /** `loadFromCache(key)` at time `now`: a fresh entry's data; a stale entry is removed. */
    method LoadFromCache(key: Key, now: int) returns (v: CacheValue)
      modifies this
      ensures State() == old(State()).(storage := Lookup(old(storage), key, now).storage)
      ensures v == Lookup(old(storage), key, now).value
      ensures v.Stored? <==> key in old(storage) && IsFresh(old(storage)[key], now)
      ensures v.Stored? || key !in old(storage) ==> storage == old(storage)
      ensures !v.Stored? ==> key !in storage
    {
      if key in storage {
        var entry := storage[key];
        if now - entry.timestamp <= FifteenMinutesInMilliseconds {
          return Stored(entry.prData);
        }
        storage := storage - {key};
      }
      return False;
    }

    /** `loadPR()`, with the two clock readings and the two remote answers as inputs. */
    method LoadPR(readClock: int, writeClock: int, info: Result<PRInfo, string>, reviewers: Result<seq<Reviewer>, string>)
      modifies this
      ensures State() == Load(old(State()), validate, readClock, writeClock, info, reviewers)
    {
      if hash == "" {
        return;
      }
      var valid := Validated(validate, StripHash(hash));
      if valid.None? {
        RenderError(InvalidUrlMessage);
        return;
      }
      var key := valid.value;
      var prData: Option<PRData> := None;
      PreRender(key);
      var cached := LoadFromCache(key, readClock);
      if Truthy(cached) {
        prData := cached.prData;
        RenderInfo(prData.value);
      } else {
        var result, issued := FetchPR(key, info, reviewers);
        log := log + issued;
        if result.Success? {
          prData := Some(result.value);
          RenderInfo(result.value);
        } else {
          RenderError(result.error);
        }
      }
      storage := storage[key := Entry(writeClock, prData)];
      PostRender();
    }

    /** `onsubmit`: validate the input and, when it is valid, set the fragment to the key. */
    method OnSubmit()
      modifies this
      ensures State() == Submit(old(State()), validate)
    {
      var valid := Validated(validate, input);
      if valid.None? {
        RenderError(InvalidUrlMessage);
        return;
      }
      hash := "#" + valid.value;
    }
  }
}
