/** The AI-engine status badge: the Writer availability the page knows about, how it
    is shown, and how "download the engine" moves it along.
 */
module DownloadManager {
  import opened Outcomes

  datatype Tone = Ready | Progress | Warn

  /** `{caption, tone}` of the status badge. */
  datatype EngineStatus = EngineStatus(caption: string, tone: Tone)

  const UnavailableLabel := "AI engine unavailable in this browser."

  /** The availability values the badge has a dedicated wording for. */
  predicate Recognised(availability: string) {
    availability in {"available", "downloading", "downloadable", "checking", "error"}
  }

  /** `writerStatus`: a total map; anything unrecognised reads as unavailable. */
  function WriterStatus(availability: string): (s: EngineStatus)
    ensures s.tone == Ready <==> availability == "available"
    ensures s.tone == Progress <==> availability in {"downloading", "downloadable", "checking"}
    ensures s.tone == Warn <==> !Recognised(availability) || availability == "error"
    ensures !Recognised(availability) <==> s.caption == UnavailableLabel
    ensures availability == "available" ==> s == EngineStatus("AI engine ready", Ready)
    ensures availability == "downloading" ==> s == EngineStatus("Downloading resources", Progress)
    ensures availability == "downloadable" ==> s == EngineStatus("Preparing AI engine\U{2026}", Progress)
    ensures availability == "checking" ==> s == EngineStatus("Checking AI engine\U{2026}", Progress)
    ensures availability == "error"
            ==> s == EngineStatus("We couldn't initialise the AI engine. Refresh to try again.", Warn)
  {
    match availability
    case "available" => EngineStatus("AI engine ready", Ready)
    case "downloading" => EngineStatus("Downloading resources", Progress)
    case "downloadable" => EngineStatus("Preparing AI engine\U{2026}", Progress)
    case "checking" => EngineStatus("Checking AI engine\U{2026}", Progress)
    case "error" => EngineStatus("We couldn't initialise the AI engine. Refresh to try again.", Warn)
    case _ => EngineStatus(UnavailableLabel, Warn)
  }

  /** The badge tells every recognised availability apart; only the unrecognised ones
      (including "unavailable" itself) share a wording. */
  lemma WriterStatusDistinguishes(a: string, b: string)
    ensures WriterStatus(a).caption == WriterStatus(b).caption
            <==> a == b || (!Recognised(a) && !Recognised(b))
  {
    var la, lb := WriterStatus(a).caption, WriterStatus(b).caption;
    if la == lb && Recognised(a) {
      assert la != UnavailableLabel;
      assert Recognised(b);
      assert la[0] == lb[0] && la[|la| - 2] == lb[|lb| - 2];
    }
  }

  /** The availability state of the status badge. */
  class DownloadManager {
    var availability: string

    constructor()
      ensures availability == "unavailable"
    {
      availability := "unavailable";
    }

    /** The mount effect: without a Writer global, or when the probe fails, the engine
        is unavailable; otherwise whatever the probe answered. */
    method Mount(writerPresent: bool, probe: Result<string>)
      modifies this
      ensures !writerPresent ==> availability == "unavailable"
      ensures writerPresent && probe.Err? ==> availability == "unavailable"
      ensures writerPresent && probe.Ok? ==> availability == probe.value
    {
      if !writerPresent {
        availability := "unavailable";
        return;
      }
      match probe {
        case Ok(a) => availability := a;
        case Err(_) => availability := "unavailable";
      }
    }

    /** `onStartDownload`.  `create` is how `Writer.create` settles (only called when
        the engine was not already available) and `reprobe` how the following
        `Writer.availability()` settles.  `shown` lists the values `availability`
        takes, in order. */
    method OnStartDownload(writerPresent: bool, create: Outcome, reprobe: Result<string>)
      returns (shown: seq<string>)
      modifies this
      ensures |shown| >= 1 && availability == shown[|shown| - 1]
      ensures !writerPresent ==> shown == ["unavailable"]
      ensures writerPresent && old(availability) != "available" ==> shown[0] == "downloading"
      ensures writerPresent && old(availability) != "available" && create.Fail?
              ==> shown == ["downloading", "error"]
      ensures writerPresent && old(availability) != "available" && create.Pass? ==> |shown| == 2
      ensures writerPresent && (old(availability) == "available" || create.Pass?)
              ==> availability == (if reprobe.Ok? then reprobe.value else "error")
      ensures writerPresent && old(availability) == "available" ==> |shown| == 1
    {
      if !writerPresent {
        availability := "unavailable";
        return ["unavailable"];
      }
      shown := [];
      if availability != "available" {
        availability := "downloading";
        shown := shown + [availability];
        if create.Fail? {
          availability := "error";
          shown := shown + [availability];
          return;
        }
      }
      match reprobe {
        case Ok(a) => availability := a;
        case Err(_) => availability := "error";
      }
      shown := shown + [availability];
    }
  }
}
