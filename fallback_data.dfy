/** The demonstration catalogue served whenever the remote catalogue cannot
    be used. */
module FallbackData {
  import opened VideoTypes
  import opened Text
  import opened DataTransformer

  /** `fallbackCategories()`: six categories, only the first with a
      subcategory. Categories without a `subcategories` array have the
      empty sequence. */
  function FallbackCategories(): (categories: seq<ExtendedCategory>)
    ensures |categories| == 6
  {
    [WebDevelopment(), MobileDevelopment(), DataScience(), GameDevelopment(), CloudComputing(), Cybersecurity()]
  }

  function WebDevelopment(): ExtendedCategory {
    ExtendedCategory(
      "1", "Web Development", "web-development",
      "Learn about web development technologies.",
      "/images/category-web-dev.jpg",
      [
        VideoItem(
          "101", "React Tutorial", "https://example.com/react-tutorial",
          "A comprehensive React tutorial for beginners.",
          ["react", "javascript", "frontend"]),
        VideoItem(
          "102", "Node.js Crash Course", "https://example.com/node-crash-course",
          "Get started with Node.js in this crash course.",
          ["node.js", "javascript", "backend"])
      ],
      [
        Subcategory(
          "11", "Frontend Frameworks", "frontend-frameworks",
          Some("Explore different frontend frameworks."),
          [
            VideoItem(
              "111", "Angular Basics", "https://example.com/angular-basics",
              "Learn the basics of Angular framework.",
              ["angular", "typescript", "frontend"])
          ])
      ])
  }

  function MobileDevelopment(): ExtendedCategory {
    ExtendedCategory(
      "2", "Mobile Development", "mobile-development",
      "Discover mobile app development techniques.",
      "/images/category-mobile-dev.jpg",
      [
        VideoItem(
          "201", "React Native Guide", "https://example.com/react-native-guide",
          "Build native apps with React Native.",
          ["react native", "javascript", "mobile"])
      ],
      [])
  }

  function DataScience(): ExtendedCategory {
    ExtendedCategory(
      "3", "Data Science", "data-science",
      "Explore data analysis and machine learning.",
      "/images/category-data-science.jpg",
      [], [])
  }

  function GameDevelopment(): ExtendedCategory {
    ExtendedCategory(
      "4", "Game Development", "game-development",
      "Create your own games with these tutorials.",
      "/images/category-game-dev.jpg",
      [], [])
  }

  function CloudComputing(): ExtendedCategory {
    ExtendedCategory(
      "5", "Cloud Computing", "cloud-computing",
      "Learn about cloud platforms and services.",
      "/images/category-cloud.jpg",
      [], [])
  }

  function Cybersecurity(): ExtendedCategory {
    ExtendedCategory(
      "6", "Cybersecurity", "cybersecurity",
      "Protect systems and networks from cyber threats.",
      "/images/category-cybersecurity.jpg",
      [], [])
  }

  /** The six categories have the ids "1" to "6", in order. */
  lemma FallbackIds()
    ensures var f := FallbackCategories();
      f[0].id == "1" && f[1].id == "2" && f[2].id == "3" && f[3].id == "4" && f[4].id == "5" && f[5].id == "6"
  {
  }

  /** Category ids and slugs are pairwise distinct. */
  lemma FallbackDistinct()
    ensures var f := FallbackCategories();
      forall i, j :: 0 <= i < j < |f| ==> f[i].id != f[j].id && f[i].slug != f[j].slug
  {
  }

  /** Only the first category has subcategories; every category has a
      non-empty image and description. */
  lemma FallbackShape()
    ensures var f := FallbackCategories();
      && |f[0].subcategories| == 1
      && (forall i :: 1 <= i < |f| ==> f[i].subcategories == [])
      && (forall i :: 0 <= i < |f| ==> f[i].imageUrl != "" && f[i].description != "")
  {
  }

  /** Every video id in the tree: 101, 102 (first category), 111 (its
      subcategory) and 201 (second category). They are pairwise distinct. */
  lemma FallbackVideoIds()
    ensures var f := FallbackCategories();
      var ids := [f[0].videos[0].id, f[0].videos[1].id, f[0].subcategories[0].videos[0].id, f[1].videos[0].id];
      && ids == ["101", "102", "111", "201"]
      && |f[0].videos| == 2 && |f[0].subcategories[0].videos| == 1 && |f[1].videos| == 1
      && (forall i :: 2 <= i < |f| ==> f[i].videos == [])
      && forall i, j :: 0 <= i < j < |ids| ==> ids[i] != ids[j]
  {
  }

  lemma SlugOfWebDevelopment()
    ensures Slugify("Web Development") == "web-development"
  {
    assert ToLower("Web") == "web" && ToLower("Development") == "development";
    assert "Web Development" == "Web" + " " + "Development";
    assert "web-development" == "web" + "-" + "development";
    SlugOfTwoLetterWords("Web", "Development");
  }

  lemma SlugOfFrontendFrameworks()
    ensures Slugify("Frontend Frameworks") == "frontend-frameworks"
  {
    assert ToLower("Frontend") == "frontend" && ToLower("Frameworks") == "frameworks";
    assert "Frontend Frameworks" == "Frontend" + " " + "Frameworks";
    assert "frontend-frameworks" == "frontend" + "-" + "frameworks";
    SlugOfTwoLetterWords("Frontend", "Frameworks");
  }

  lemma SlugOfMobileDevelopment()
    ensures Slugify("Mobile Development") == "mobile-development"
  {
    assert ToLower("Mobile") == "mobile" && ToLower("Development") == "development";
    assert "Mobile Development" == "Mobile" + " " + "Development";
    assert "mobile-development" == "mobile" + "-" + "development";
    SlugOfTwoLetterWords("Mobile", "Development");
  }

  lemma SlugOfDataScience()
    ensures Slugify("Data Science") == "data-science"
  {
    assert ToLower("Data") == "data" && ToLower("Science") == "science";
    assert "Data Science" == "Data" + " " + "Science";
    assert "data-science" == "data" + "-" + "science";
    SlugOfTwoLetterWords("Data", "Science");
  }

  lemma SlugOfGameDevelopment()
    ensures Slugify("Game Development") == "game-development"
  {
    assert ToLower("Game") == "game" && ToLower("Development") == "development";
    assert "Game Development" == "Game" + " " + "Development";
    assert "game-development" == "game" + "-" + "development";
    SlugOfTwoLetterWords("Game", "Development");
  }

  lemma SlugOfCloudComputing()
    ensures Slugify("Cloud Computing") == "cloud-computing"
  {
    assert ToLower("Cloud") == "cloud" && ToLower("Computing") == "computing";
    assert "Cloud Computing" == "Cloud" + " " + "Computing";
    assert "cloud-computing" == "cloud" + "-" + "computing";
    SlugOfTwoLetterWords("Cloud", "Computing");
  }

  lemma SlugOfCybersecurity()
    ensures Slugify("Cybersecurity") == "cybersecurity"
  {
    assert NoWhitespace("Cybersecurity");
    assert ToLower("Cybersecurity") == "cybersecurity";
    SlugOfWord("Cybersecurity");
  }

  lemma WebDevelopmentWellFormed()
    ensures WellFormedCategory(WebDevelopment())
  {
    SlugOfWebDevelopment();
    SlugOfFrontendFrameworks();
  }

  lemma MobileDevelopmentWellFormed()
    ensures WellFormedCategory(MobileDevelopment())
  {
    SlugOfMobileDevelopment();
  }

  lemma DataScienceWellFormed()
    ensures WellFormedCategory(DataScience())
  {
    SlugOfDataScience();
  }

  lemma GameDevelopmentWellFormed()
    ensures WellFormedCategory(GameDevelopment())
  {
    SlugOfGameDevelopment();
  }

  lemma CloudComputingWellFormed()
    ensures WellFormedCategory(CloudComputing())
  {
    SlugOfCloudComputing();
  }

  lemma CybersecurityWellFormed()
    ensures WellFormedCategory(Cybersecurity())
  {
    SlugOfCybersecurity();
  }

  /** The demonstration catalogue is a well-formed catalogue: every slug
      is its name lower-cased with the space replaced by a hyphen, and every
      category has a description. */
  lemma FallbackWellFormed()
    ensures WellFormedCatalogue(FallbackCategories())
  {
    WebDevelopmentWellFormed();
    MobileDevelopmentWellFormed();
    DataScienceWellFormed();
    GameDevelopmentWellFormed();
    CloudComputingWellFormed();
    CybersecurityWellFormed();
  }
}
