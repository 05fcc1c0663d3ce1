/** The `WellnessRecommendation` collection's schema: a history of generated recommendations per user. */
module WellnessRecommendationModel {

  datatype Recommendation = Recommendation(
    title: string,
    description: string,
    benefits: seq<string>,
    instructions: seq<string>,
    contraindications: seq<string>)

  datatype Recommendations = Recommendations(mental: seq<Recommendation>, physical: seq<Recommendation>)

  datatype RecommendationDoc = RecommendationDoc(
    id: nat,
    userId: string,
    recommendations: Recommendations,
    createdAt: int,
    updatedAt: int)

  function OwnedBy(userId: string): RecommendationDoc -> bool {
    (d: RecommendationDoc) => d.userId == userId
  }

  function CreatedAt(): RecommendationDoc -> int {
    (d: RecommendationDoc) => d.createdAt
  }
}
