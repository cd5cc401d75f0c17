/**
 * `create_playlist_name_and_description`: the playlist's title and
 * description, derived from the chart's year (a year, a decade such as
 * "1960s", or "all-time") and its genre list.
 */
module Naming {
  import opened Wrappers
  import opened Text

  const AllTime: string := "all-time"
  const AllTimeLabel: string := "All Time"
  const Attribution: string := "Generated by https://github.com/OfcPeriwinkle/top-tracks."

  datatype PlaylistText = PlaylistText(name: string, description: string)

  /** Taking the last character of an empty year raises `IndexError`. */
  datatype NamingError = EmptyYear

  /** Each genre with hyphens turned into spaces, title-cased: "new-wave" becomes "New Wave". */
  function DisplayGenres(genres: seq<string>): seq<string>
  {
    seq(|genres|, i requires 0 <= i < |genres| => Title(ReplaceChar(genres[i], '-', ' ')))
  }

  /** The year as shown: "All Time" for "all-time", and "the " before anything ending in 's'. */
  function DisplayYear(year: string): Result<string, NamingError>
  {
    var display := if year != AllTime then year else AllTimeLabel;
    if |display| == 0 then Failure(EmptyYear)
    else if display[|display| - 1] == 's' then Success("the " + display)
    else Success(display)
  }

  function Preposition(displayYear: string): string
  {
    if displayYear != AllTimeLabel then "from" else "of"
  }

  /** `create_playlist_name_and_description`; a missing genre list is the empty one. */
  function PlaylistNameAndDescription(year: string, genres: seq<string>): Result<PlaylistText, NamingError>
  {
    var displayGenres := DisplayGenres(genres);
    var genreDescription := if |genres| > 0 then Join(displayGenres, ", ") else "";
    match DisplayYear(year)
    case Failure(e) => Failure(e)
    case Success(displayYear) =>
      var preposition := Preposition(displayYear);
      var name := [
        "RYM Top",
        if |displayGenres| > 0 then Join(displayGenres, ", ") else "Tracks",
        preposition,
        displayYear
      ];
      var description := [
        "The top",
        Lower(genreDescription),
        "tracks",
        preposition,
        Lower(displayYear),
        "according to Rate Your Music.",
        Attribution
      ];
      Success(PlaylistText(Join(name, " "), Join(description, " ")))
  }

  /**
   * The displayed year and its preposition, by case: "all-time" gives "All Time"
   * and "of"; another year ending in 's' gives "the {year}" and "from"; any
   * other non-empty year is shown as given, with "of" only when it is
   * literally "All Time". Only the empty year fails.
   */
  lemma LabelAndPreposition(year: string)
    ensures DisplayYear(year).Failure? <==> year == ""
    ensures year == AllTime ==>
              DisplayYear(year) == Success("All Time") && Preposition("All Time") == "of"
    ensures year != AllTime && year != "" && year[|year| - 1] == 's' ==>
              DisplayYear(year) == Success("the " + year) && Preposition("the " + year) == "from"
    ensures year != AllTime && year != "" && year[|year| - 1] != 's' ==>
              DisplayYear(year) == Success(year) && Preposition(year) == (if year == "All Time" then "of" else "from")
  {
    assert AllTimeLabel[|AllTimeLabel| - 1] == 'e';
    assert ("the " + year)[0] == 't' && AllTimeLabel[0] == 'A';
  }

  lemma JoinFour(a: string, b: string, c: string, d: string)
    ensures Join([a, b, c, d], " ") == a + " " + b + " " + c + " " + d
  {
    assert [a, b] == [a] + [b] && [b][1..] == [];
    JoinSnoc([a, b], c, " ");
    assert [a, b] + [c] == [a, b, c];
    JoinSnoc([a, b, c], d, " ");
    assert [a, b, c] + [d] == [a, b, c, d];
  }

  lemma JoinSeven(a: string, b: string, c: string, d: string, e: string, f: string, g: string)
    ensures Join([a, b, c, d, e, f, g], " ") == a + " " + b + " " + c + " " + d + " " + e + " " + f + " " + g
  {
    JoinFour(a, b, c, d);
    JoinSnoc([a, b, c, d], e, " ");
    assert [a, b, c, d] + [e] == [a, b, c, d, e];
    JoinSnoc([a, b, c, d, e], f, " ");
    assert [a, b, c, d, e] + [f] == [a, b, c, d, e, f];
    JoinSnoc([a, b, c, d, e, f], g, " ");
    assert [a, b, c, d, e, f] + [g] == [a, b, c, d, e, f, g];
  }

  /** The name is "RYM Top {genres or 'Tracks'} {preposition} {display year}", joined by single spaces. */
  lemma NameText(year: string, genres: seq<string>)
    requires year != ""
    ensures var r := PlaylistNameAndDescription(year, genres);
      var display := DisplayYear(year).value;
      && r.Success?
      && r.value.name == "RYM Top" + " " + (if genres == [] then "Tracks" else Join(DisplayGenres(genres), ", "))
                         + " " + Preposition(display) + " " + display
  {
    LabelAndPreposition(year);
    var display := DisplayYear(year).value;
    var shown := if genres == [] then "Tracks" else Join(DisplayGenres(genres), ", ");
    assert |genres| == |DisplayGenres(genres)|;
    assert PlaylistNameAndDescription(year, genres).value.name == Join(["RYM Top", shown, Preposition(display), display], " ");
    JoinFour("RYM Top", shown, Preposition(display), display);
  }

  /**
   * The description is "The top {genres, lower-cased} tracks {preposition}
   * {display year, lower-cased} according to Rate Your Music. Generated by ...",
   * joined by single spaces.
   */
  lemma DescriptionText(year: string, genres: seq<string>)
    requires year != ""
    ensures var r := PlaylistNameAndDescription(year, genres);
      var display := DisplayYear(year).value;
      && r.Success?
      && r.value.description == "The top" + " " + (if genres == [] then "" else Lower(Join(DisplayGenres(genres), ", ")))
                                + " " + "tracks" + " " + Preposition(display) + " " + Lower(display)
                                + " " + "according to Rate Your Music." + " " + Attribution
  {
    LabelAndPreposition(year);
    var display := DisplayYear(year).value;
    var shown := if genres == [] then "" else Lower(Join(DisplayGenres(genres), ", "));
    assert Lower("") == "";
    assert PlaylistNameAndDescription(year, genres).value.description
        == Join(["The top", shown, "tracks", Preposition(display), Lower(display), "according to Rate Your Music.", Attribution], " ");
    JoinSeven("The top", shown, "tracks", Preposition(display), Lower(display), "according to Rate Your Music.", Attribution);
  }

  /** Hyphens never survive into the displayed genres. */
  lemma DisplayGenresHaveNoHyphens(genres: seq<string>)
    ensures forall g :: g in DisplayGenres(genres) ==> '-' !in g
  {
    forall i | 0 <= i < |genres|
      ensures '-' !in DisplayGenres(genres)[i]
    {
      var s := ReplaceChar(genres[i], '-', ' ');
      assert forall k :: 0 <= k < |s| ==> s[k] != '-';
      assert forall k :: 0 <= k < |s| ==> Title(s)[k] != '-';
    }
  }

  /** "all-time" with no genres: "RYM Top Tracks of All Time". */
  lemma AllTimeWithoutGenresExample()
    ensures PlaylistNameAndDescription("all-time", []).Success?
    ensures PlaylistNameAndDescription("all-time", []).value.name == "RYM Top Tracks of All Time"
  {
    assert DisplayYear("all-time") == Success("All Time") && Preposition("All Time") == "of" by {
      LabelAndPreposition("all-time");
    }
    assert "RYM Top" + " " + "Tracks" + " " + "of" + " " + "All Time" == "RYM Top Tracks of All Time" by {
      assert "RYM Top" + " " + "Tracks" == "RYM Top Tracks";
      assert "RYM Top Tracks" + " " + "of" == "RYM Top Tracks of";
    }
    NameText("all-time", []);
  }

  lemma DisplayNewWave()
    ensures DisplayGenres(["new-wave"]) == ["New Wave"]
  {
    var s := ReplaceChar("new-wave", '-', ' ');
    assert s == "new wave";
    var r := Title(s);
    assert r[0] == 'N' && r[1] == 'e' && r[2] == 'w' && r[3] == ' ';
    assert r[4] == 'W' && r[5] == 'a' && r[6] == 'v' && r[7] == 'e';
    assert r == "New Wave";
  }

  /** A decade with one hyphenated genre: "RYM Top New Wave from the 1960s". */
  /** The decade "1960s" is shown as "the 1960s", after "from". */
  lemma DecadeDisplay()
    ensures DisplayYear("1960s") == Success("the 1960s")
    ensures Preposition("the 1960s") == "from"
  {
    assert |"1960s"| != |AllTime| && "1960s"[4] == 's';
    assert |"the 1960s"| != |AllTimeLabel|;
    assert "the " + "1960s" == "the 1960s";
  }

  lemma DecadeWithGenreExample()
    ensures PlaylistNameAndDescription("1960s", ["new-wave"]).Success?
    ensures PlaylistNameAndDescription("1960s", ["new-wave"]).value.name == "RYM Top New Wave from the 1960s"
  {
    DecadeDisplay();
    assert Join(DisplayGenres(["new-wave"]), ", ") == "New Wave" by {
      DisplayNewWave();
    }
    assert "RYM Top" + " " + "New Wave" + " " + "from" + " " + "the 1960s" == "RYM Top New Wave from the 1960s" by {
      assert "RYM Top" + " " + "New Wave" == "RYM Top New Wave";
      assert "RYM Top New Wave" + " " + "from" == "RYM Top New Wave from";
    }
    NameText("1960s", ["new-wave"]);
  }

  /** Without genres the description keeps an empty segment, so "top" and "tracks" are two spaces apart. */
  lemma NoGenresDoubleSpace(year: string)
    requires year != ""
    ensures PlaylistNameAndDescription(year, []).Success?
    ensures "The top  tracks " <= PlaylistNameAndDescription(year, []).value.description
  {
    LabelAndPreposition(year);
    var display := DisplayYear(year).value;
    var later := [Preposition(display), Lower(display), "according to Rate Your Music.", Attribution];
    var parts := ["The top", "", "tracks", Preposition(display), Lower(display), "according to Rate Your Music.", Attribution];
    assert Lower("") == "";
    assert PlaylistNameAndDescription(year, []).value.description == Join(parts, " ");
    assert parts == ["The top", "", "tracks"] + later;
    JoinConsThree("The top", "", "tracks", later, " ");
    var head := "The top" + " " + "" + " " + "tracks" + " ";
    assert head == "The top  tracks ";
    assert head <= head + Join(later, " ");
  }
}
