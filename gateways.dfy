/** The three fetch helpers (app.py:107-134). The HTTP exchange itself is
    not modelled: each helper takes `reply`, what a successful request
    would have produced, with `None` standing for any failure (a raised
    exception, a timeout or a status other than 200). */
module Gateways {
  import opened Wrappers
  import opened Strings

  /** The dictionary `get_weather` builds: temperature and description. */
  datatype Weather = Weather(temp: real, desc: string)

  /** A helper's result, together with whether it sent a request. */
  datatype Lookup<T> = Lookup(requested: bool, result: Option<T>)

  /** `get_weather(city, api_key)` (app.py:107-116): with an empty key it
      gives up before sending anything; otherwise it reports the reply,
      or nothing when the request failed. */
  function GetWeather(city: string, apiKey: string, reply: Option<Weather>): (r: Lookup<Weather>)
    ensures r.requested <==> apiKey != ""
    ensures apiKey == "" ==> r.result.None?
    ensures apiKey != "" ==> r.result == reply
  {
    if apiKey == "" then Lookup(false, None) else Lookup(true, reply)
  }

  /** The breed in a dog.ceo image URL (app.py:123): the second-to-last
      `/`-separated piece, hyphens turned into spaces, title-cased. When
      the URL has no `/` the indexing raises, which the caller turns
      into no result. */
  function BreedOf(url: string): (breed: Option<string>)
    ensures breed.Some? <==> '/' in url
    ensures breed.Some? ==> '/' !in breed.value && '-' !in breed.value
  {
    var parts := Split(url, '/');
    SplitPieces(url, '/');
    if |parts| < 2 then None
    else
      var piece := ReplaceChar(parts[|parts| - 2], '-', ' ');
      TitleKeepsNonLetters(piece);
      assert '/' !in piece && '-' !in piece;
      Some(Title(piece))
  }

  /** For `.../<breed-path>/<file>` the breed is the title-cased
      `<breed-path>` with spaces for hyphens. */
  lemma BreedOfPath(prefix: string, piece: string, file: string)
    requires '/' !in piece && '/' !in file
    ensures BreedOf(prefix + "/" + piece + "/" + file) == Some(Title(ReplaceChar(piece, '-', ' ')))
  {
    LastTwoPieces(prefix, piece, file, '/');
  }

  /** A two-word breed directory such as `hound-afghan` gives the two
      words capitalized and separated by a space: "Hound Afghan". */
  lemma BreedOfTwoWords(prefix: string, w1: string, w2: string, file: string)
    requires |w1| > 0 && forall i :: 0 <= i < |w1| ==> IsLower(w1[i])
    requires |w2| > 0 && forall i :: 0 <= i < |w2| ==> IsLower(w2[i])
    requires '/' !in file
    ensures BreedOf(prefix + "/" + (w1 + "-" + w2) + "/" + file)
      == Some(Capitalized(w1) + " " + Capitalized(w2))
  {
    var piece := w1 + "-" + w2;
    assert '-' !in w1 && '-' !in w2 by {
      forall i | 0 <= i < |w1| ensures w1[i] != '-' { assert IsLower(w1[i]); }
      forall i | 0 <= i < |w2| ensures w2[i] != '-' { assert IsLower(w2[i]); }
    }
    assert '/' !in piece by {
      forall i | 0 <= i < |piece| ensures piece[i] != '/' {
        if i < |w1| {
          assert IsLower(w1[i]);
        } else if i > |w1| {
          assert piece[i] == w2[i - |w1| - 1] && IsLower(w2[i - |w1| - 1]);
        }
      }
    }
    BreedOfPath(prefix, piece, file);
    ReplaceCharAppend(w1 + "-", w2, '-', ' ');
    ReplaceCharAppend(w1, "-", '-', ' ');
    ReplaceCharAbsent(w1, '-', ' ');
    ReplaceCharAbsent(w2, '-', ' ');
    assert ReplaceChar(piece, '-', ' ') == w1 + [' '] + w2;
    TitleFromWords(w1, ' ', w2, false);
    TitleWord(w1);
    TitleWord(w2);
  }

  /** The image URL and the breed derived from it. */
  datatype DogPartner = DogPartner(url: string, breed: string)

  /** `get_dog_image()` (app.py:118-126): `message` is the image URL the
      service sent back, `None` when the request failed. A URL without a
      breed piece raises inside the `try`, so then both values are lost. */
  function GetDogImage(message: Option<string>): (dog: Option<DogPartner>)
    ensures dog.Some? <==> message.Some? && '/' in message.value
    ensures dog.Some? ==> dog.value.url == message.value && Some(dog.value.breed) == BreedOf(message.value)
  {
    match message
    case None => None
    case Some(url) =>
      match BreedOf(url)
      case None => None
      case Some(breed) => Some(DogPartner(url, breed))
  }

  /** A tarot card as the tarot API describes it. */
  datatype TarotCard = TarotCard(name: string, meaningUp: string, desc: string)

  /** The card handed out when the tarot API cannot be reached. */
  const FoolCard := TarotCard("The Fool", "새로운 시작, 모험, 순수함", "기본 카드")

  /** `get_tarot_card()` (app.py:128-134): always a card, the fixed
      fallback card whenever the request failed. */
  function GetTarotCard(reply: Option<TarotCard>): (card: TarotCard)
    ensures reply.None? ==> card == FoolCard
    ensures reply.Some? ==> card == reply.value
  {
    match reply
    case Some(c) => c
    case None => FoolCard
  }
}
